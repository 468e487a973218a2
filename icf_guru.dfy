/** The ICF workflow's content stage: cleaning a model reply, and choosing,
    subsection by subsection, between the generated text, the fallback
    text and nothing. */
module IcfGuru {
  import opened Wrappers
  import opened Text
  import opened PyValue
  import opened IcfSubsections
  import opened IcfValidator
  import WorkflowBase

  // ---------------------------------------------------------------------
  // Cleaning a reply

  /** `text.split("\n")`, dropping the first line and then the last when
      they open or close a Markdown code block. Only applied to a text
      that opens one. */
  function WithoutFences(lines: seq<string>): seq<string>
  {
    var body := if lines != [] && WorkflowBase.IsFence(lines[0]) then lines[1..] else lines;
    if body != [] && WorkflowBase.IsFence(body[|body| - 1]) then body[..|body| - 1] else body
  }

  /** The fence step of `_clean_response`. */
  function Unfence(text: string): string
  {
    if WorkflowBase.IsFence(text) then Join(WithoutFences(Split(text, "\n")), "\n") else text
  }

  /** `str(item)` for each item of a JSON list. */
  function ItemTexts(items: seq<Value>): (r: seq<string>)
    ensures |r| == |items| && forall k :: 0 <= k < |items| ==> r[k] == Str(items[k])
  {
    seq(|items|, k requires 0 <= k < |items| => Str(items[k]))
  }

  /** `_clean_response`: strip, drop the fences, then, for a text that
      looks like JSON and decodes, take a dict's "content" or join a list's
      items with blank lines, and strip again. `decode` stands for
      `json.loads`; a text it rejects is kept as it is. A "content" that
      is not a string makes the final `strip` fail. */
  function CleanResponse(response: string, decode: string -> Option<Value>): Result<string, string>
  {
    var text := Unfence(Strip(response));
    if StartsWith(text, "{") || StartsWith(text, "[") then
      match decode(text)
      case Some(VDict(f)) =>
        var v := Get(f, "content", VStr(Str(VDict(f))));
        if v.VStr? then Ok(Strip(v.s)) else Err("AttributeError: object has no attribute 'strip'")
      case Some(VList(items)) => Ok(Strip(Join(ItemTexts(items), "\n\n")))
      case _ => Ok(Strip(text))
    else Ok(Strip(text))
  }

  /** A reply wrapped in a code block, with any language tag on the opening
      line, cleans to its stripped body, whatever lines the body holds,
      unless the body looks like JSON. */
  lemma FencedReplyCleans(tag: string, body: string, decode: string -> Option<Value>)
    requires forall i :: 0 <= i < |tag| ==> tag[i] != '\n'
    requires !StartsWith(body, "{") && !StartsWith(body, "[")
    ensures CleanResponse("```" + tag + "\n" + body + "\n```", decode) == Ok(Strip(body))
  {
    var opening := "```" + tag;
    var s := opening + "\n" + body + "\n```";
    assert s[0] == '`' && s[|s| - 1] == '`';
    WorkflowBase.StripKeepsEnds(s);
    UnfenceFenced(opening, body);
  }

  /** Dropping the fences of a fenced block leaves its body. */
  lemma UnfenceFenced(opening: string, body: string)
    requires "```" <= opening && forall i :: 0 <= i < |opening| ==> opening[i] != '\n'
    ensures Unfence(opening + "\n" + body + "\n```") == body
  {
    WorkflowBase.FencedLines(opening, body);
    WithoutFencesOfBlock(opening, Split(body, "\n"));
  }

  lemma WithoutFencesOfBlock(opening: string, mid: seq<string>)
    requires WorkflowBase.IsFence(opening)
    ensures WithoutFences([opening] + mid + ["```"]) == mid
  {
    var lines := [opening] + mid + ["```"];
    assert lines[1..] == mid + ["```"];
    assert (mid + ["```"])[..|mid|] == mid;
  }

  /** A reply that neither opens a code block nor looks like JSON is only
      stripped. */
  lemma PlainReplyCleans(response: string, decode: string -> Option<Value>)
    requires !WorkflowBase.IsFence(Strip(response))
    requires !StartsWith(Strip(response), "{") && !StartsWith(Strip(response), "[")
    ensures CleanResponse(response, decode) == Ok(Strip(response))
  {
    StripSetIdempotent(response, Whitespace);
  }

  /** A JSON dict reply gives its stripped "content" string. */
  lemma JsonContentCleans(response: string, decode: string -> Option<Value>, f: map<string, Value>, s: string)
    requires !WorkflowBase.IsFence(Strip(response)) && StartsWith(Strip(response), "{")
    requires decode(Strip(response)) == Some(VDict(f)) && "content" in f && f["content"] == VStr(s)
    ensures CleanResponse(response, decode) == Ok(Strip(s))
  {
  }

  /** A reply that looks like JSON but does not decode is kept, stripped. */
  lemma UndecodableReplyKept(response: string, decode: string -> Option<Value>)
    requires decode(Unfence(Strip(response))).None?
    ensures CleanResponse(response, decode) == Ok(Strip(Unfence(Strip(response))))
  {
  }

  // ---------------------------------------------------------------------
  // Choosing each subsection's content

  /** Subsections the assembler builds itself. */
  const StructuralIds: seq<string> := ["document_header", "contact_information", "signature_page"]

  /** Subsections whose failure without a fallback stops generation. */
  const CriticalIds: seq<string> := ["study_purpose_overview", "voluntary_participation"]

  function CriticalError(id: string): string
  {
    "Failed to generate critical subsection: " + id
  }

  /** `not relevant_data or all(not v for v in relevant_data.values())`. */
  predicate NoData(relevant: map<string, Value>)
  {
    forall k :: k in relevant ==> !Truthy(relevant[k])
  }

  /** `subsection.fallback_content` is truthy. */
  predicate HasFallback(d: SubsectionDefinition)
  {
    FallbackContent(d).Some? && FallbackContent(d).value != ""
  }

  /** `if subsection.fallback_content: subsection_content[id] = ...`. */
  function WithFallback(acc: map<string, string>, d: SubsectionDefinition): map<string, string>
  {
    if HasFallback(d) then acc[d.id := FallbackContent(d).value] else acc
  }

  /** One pass of the loop of `generate_content`. `prompt` stands for the
      prompt builder ("" when there is no template) and `generate` for
      `_generate_subsection`, retries included: a text, or the error it
      raised. An error that escapes the loop ends generation. */
  function Step(defs: seq<SubsectionDefinition>, data: map<string, Value>,
                prompt: (SubsectionDefinition, map<string, Value>) -> string,
                generate: (SubsectionDefinition, string) -> Result<string, string>,
                acc: map<string, string>, d: SubsectionDefinition): Result<map<string, string>, string>
  {
    if Skips(defs, d.id, data) || d.id in StructuralIds then Ok(acc)
    else
      match RelevantData(defs, d.id, data)
      case Err(e) => Err(e)
      case Ok(relevant) =>
        if d.requiredFields != [] && NoData(relevant) then Ok(WithFallback(acc, d))
        else
          var p := prompt(d, relevant);
          if p == "" then Ok(WithFallback(acc, d))
          else Chosen(acc, d, generate(d, p))
  }

  /** The `try` block of `generate_content`: valid text is kept; invalid
      text gives way to a fallback, or is kept without one; a failure falls
      back, raises for a critical subsection, or leaves the subsection out. */
  function Chosen(acc: map<string, string>, d: SubsectionDefinition, generated: Result<string, string>)
    : Result<map<string, string>, string>
  {
    match generated
    case Ok(content) =>
      if SubsectionErrors(content, d.maxParagraphs) == [] then Ok(acc[d.id := content])
      else if HasFallback(d) then Ok(acc[d.id := FallbackContent(d).value])
      else Ok(acc[d.id := content])
    case Err(_) =>
      if HasFallback(d) then Ok(acc[d.id := FallbackContent(d).value])
      else if d.id in CriticalIds then Err(CriticalError(d.id))
      else Ok(acc)
  }

  /** The content after the loop has seen `xs`, or the error that ended it. */
  function Generated(defs: seq<SubsectionDefinition>, data: map<string, Value>,
                     prompt: (SubsectionDefinition, map<string, Value>) -> string,
                     generate: (SubsectionDefinition, string) -> Result<string, string>,
                     xs: seq<SubsectionDefinition>): Result<map<string, string>, string>
  {
    if xs == [] then Ok(map[])
    else
      match Generated(defs, data, prompt, generate, xs[..|xs| - 1])
      case Err(e) => Err(e)
      case Ok(acc) => Step(defs, data, prompt, generate, acc, xs[|xs| - 1])
  }

  /** `generate_content`: the subsections in ascending order, each skipped,
      generated, validated, or replaced by its fallback. The closing
      completeness check only logs, so its verdict is dropped. */
  method GenerateContent(defs: seq<SubsectionDefinition>, data: map<string, Value>,
                         prompt: (SubsectionDefinition, map<string, Value>) -> string,
                         generate: (SubsectionDefinition, string) -> Result<string, string>)
    returns (r: Result<map<string, string>, string>)
    ensures r == Generated(defs, data, prompt, generate, GetOrderedSubsections(defs))
  {
    var ordered := GetOrderedSubsections(defs);
    var content: map<string, string> := map[];
    for i := 0 to |ordered|
      invariant Generated(defs, data, prompt, generate, ordered[..i]) == Ok(content)
    {
      assert ordered[..i + 1][..i] == ordered[..i];
      var d := ordered[i];
      var next := GenerateOne(defs, data, prompt, generate, content, d);
      if next.Err? {
        ErrorEndsGeneration(defs, data, prompt, generate, ordered, i + 1);
        return next;
      }
      content := next.value;
    }
    assert ordered[..|ordered|] == ordered;
    var complete := ValidateCompleteIcf(content);
    r := Ok(content);
  }

  /** The body of the loop of `generate_content` for one subsection. */
  method GenerateOne(defs: seq<SubsectionDefinition>, data: map<string, Value>,
                     prompt: (SubsectionDefinition, map<string, Value>) -> string,
                     generate: (SubsectionDefinition, string) -> Result<string, string>,
                     acc: map<string, string>, d: SubsectionDefinition)
    returns (r: Result<map<string, string>, string>)
    ensures r == Step(defs, data, prompt, generate, acc, d)
  {
    var skip := ShouldSkip(defs, d.id, data);
    if skip || d.id in StructuralIds {
      return Ok(acc);
    }
    var relevant := ExtractRelevantData(defs, d.id, data);
    if relevant.Err? {
      return Err(relevant.error);
    }
    var fallback := FallbackContent(d);
    if d.requiredFields != [] && NoData(relevant.value) {
      r := Ok(acc);
      if fallback.Some? && fallback.value != "" {
        r := Ok(acc[d.id := fallback.value]);
      }
      return;
    }
    var p := prompt(d, relevant.value);
    if p == "" {
      r := Ok(acc);
      if fallback.Some? && fallback.value != "" {
        r := Ok(acc[d.id := fallback.value]);
      }
      return;
    }
    r := TryGenerate(acc, d, generate(d, p));
  }

  /** The `try` block of `generate_content`, with `generated` the outcome
      of `_generate_subsection`. */
  method TryGenerate(acc: map<string, string>, d: SubsectionDefinition, generated: Result<string, string>)
    returns (r: Result<map<string, string>, string>)
    ensures r == Chosen(acc, d, generated)
  {
    var fallback := FallbackContent(d);
    if generated.Ok? {
      var content := generated.value;
      var validation := ValidateSubsection(content, d.maxParagraphs);
      if validation.isValid {
        r := Ok(acc[d.id := content]);
      } else if fallback.Some? && fallback.value != "" {
        r := Ok(acc[d.id := fallback.value]);
      } else {
        r := Ok(acc[d.id := content]);
      }
    } else if fallback.Some? && fallback.value != "" {
      r := Ok(acc[d.id := fallback.value]);
    } else if d.id in CriticalIds {
      r := Err(CriticalError(d.id));
    } else {
      r := Ok(acc);
    }
  }

  /** Once an error has ended the loop, later subsections change nothing. */
  lemma {:induction false} ErrorEndsGeneration(defs: seq<SubsectionDefinition>, data: map<string, Value>,
                                               prompt: (SubsectionDefinition, map<string, Value>) -> string,
                                               generate: (SubsectionDefinition, string) -> Result<string, string>,
                                               xs: seq<SubsectionDefinition>, n: nat)
    requires n <= |xs| && Generated(defs, data, prompt, generate, xs[..n]).Err?
    ensures Generated(defs, data, prompt, generate, xs) == Generated(defs, data, prompt, generate, xs[..n])
    decreases |xs|
  {
    if n < |xs| {
      var front := xs[..|xs| - 1];
      assert front[..n] == xs[..n];
      ErrorEndsGeneration(defs, data, prompt, generate, front, n);
    } else {
      assert xs[..n] == xs;
    }
  }

  // ---------------------------------------------------------------------
  // What one step does

  /** Valid generated text is stored as it is. */
  lemma ValidContentKept(defs: seq<SubsectionDefinition>, data: map<string, Value>,
                         prompt: (SubsectionDefinition, map<string, Value>) -> string,
                         generate: (SubsectionDefinition, string) -> Result<string, string>,
                         acc: map<string, string>, d: SubsectionDefinition, relevant: map<string, Value>, content: string)
    requires !Skips(defs, d.id, data) && d.id !in StructuralIds
    requires RelevantData(defs, d.id, data) == Ok(relevant) && !(d.requiredFields != [] && NoData(relevant))
    requires prompt(d, relevant) != "" && generate(d, prompt(d, relevant)) == Ok(content)
    requires SubsectionErrors(content, d.maxParagraphs) == []
    ensures Step(defs, data, prompt, generate, acc, d) == Ok(acc[d.id := content])
  {
  }

  /** Invalid generated text gives way to the fallback when there is one,
      and is stored anyway when there is none. */
  lemma InvalidContentReplaced(defs: seq<SubsectionDefinition>, data: map<string, Value>,
                               prompt: (SubsectionDefinition, map<string, Value>) -> string,
                               generate: (SubsectionDefinition, string) -> Result<string, string>,
                               acc: map<string, string>, d: SubsectionDefinition, relevant: map<string, Value>, content: string)
    requires !Skips(defs, d.id, data) && d.id !in StructuralIds
    requires RelevantData(defs, d.id, data) == Ok(relevant) && !(d.requiredFields != [] && NoData(relevant))
    requires prompt(d, relevant) != "" && generate(d, prompt(d, relevant)) == Ok(content)
    requires SubsectionErrors(content, d.maxParagraphs) != []
    ensures HasFallback(d) ==> Step(defs, data, prompt, generate, acc, d) == Ok(acc[d.id := FallbackContent(d).value])
    ensures !HasFallback(d) ==> Step(defs, data, prompt, generate, acc, d) == Ok(acc[d.id := content])
  {
  }

  /** A failed generation falls back when it can; without a fallback it
      raises for the two critical subsections only, and leaves any other
      subsection out. */
  lemma FailedGeneration(defs: seq<SubsectionDefinition>, data: map<string, Value>,
                         prompt: (SubsectionDefinition, map<string, Value>) -> string,
                         generate: (SubsectionDefinition, string) -> Result<string, string>,
                         acc: map<string, string>, d: SubsectionDefinition, relevant: map<string, Value>)
    requires !Skips(defs, d.id, data) && d.id !in StructuralIds
    requires RelevantData(defs, d.id, data) == Ok(relevant) && !(d.requiredFields != [] && NoData(relevant))
    requires prompt(d, relevant) != "" && generate(d, prompt(d, relevant)).Err?
    ensures Step(defs, data, prompt, generate, acc, d).Err? <==> !HasFallback(d) && d.id in CriticalIds
    ensures Step(defs, data, prompt, generate, acc, d).Err? ==>
      Step(defs, data, prompt, generate, acc, d).error == CriticalError(d.id)
    ensures !HasFallback(d) && d.id !in CriticalIds ==> Step(defs, data, prompt, generate, acc, d) == Ok(acc)
  {
  }

  /** A step stores at most its own subsection, and never a skipped or
      structural one. */
  lemma StepTouchesOwnId(defs: seq<SubsectionDefinition>, data: map<string, Value>,
                         prompt: (SubsectionDefinition, map<string, Value>) -> string,
                         generate: (SubsectionDefinition, string) -> Result<string, string>,
                         acc: map<string, string>, d: SubsectionDefinition)
    requires Step(defs, data, prompt, generate, acc, d).Ok?
    ensures var m := Step(defs, data, prompt, generate, acc, d).value;
      (forall k :: k in m && k != d.id ==> k in acc && m[k] == acc[k])
      && (forall k :: k in acc ==> k in m)
      && (Skips(defs, d.id, data) || d.id in StructuralIds ==> m == acc)
  {
  }

  /** Every stored key is the id of a subsection seen, neither skipped nor
      structural. */
  lemma {:induction false} StoredKeysComeFromSubsections(defs: seq<SubsectionDefinition>, data: map<string, Value>,
                                                         prompt: (SubsectionDefinition, map<string, Value>) -> string,
                                                         generate: (SubsectionDefinition, string) -> Result<string, string>,
                                                         xs: seq<SubsectionDefinition>, k: string)
    requires Generated(defs, data, prompt, generate, xs).Ok? && k in Generated(defs, data, prompt, generate, xs).value
    ensures k !in StructuralIds && !Skips(defs, k, data)
    ensures exists i :: 0 <= i < |xs| && xs[i].id == k
  {
    var front := xs[..|xs| - 1];
    var d := xs[|xs| - 1];
    var acc := Generated(defs, data, prompt, generate, front).value;
    StepTouchesOwnId(defs, data, prompt, generate, acc, d);
    if k in acc && Generated(defs, data, prompt, generate, xs).value[k] == acc[k] && k != d.id {
      StoredKeysComeFromSubsections(defs, data, prompt, generate, front, k);
      var i :| 0 <= i < |front| && front[i].id == k;
      assert xs[i] == front[i];
    } else if k == d.id {
      if k in acc {
        StoredKeysComeFromSubsections(defs, data, prompt, generate, front, k);
      }
      assert xs[|xs| - 1].id == k;
    }
  }

  /** Generation fails only through a subsection whose data could not be
      extracted, or through a critical subsection that failed without a
      fallback. */
  lemma {:induction false} GenerationErrorCause(defs: seq<SubsectionDefinition>, data: map<string, Value>,
                                                prompt: (SubsectionDefinition, map<string, Value>) -> string,
                                                generate: (SubsectionDefinition, string) -> Result<string, string>,
                                                xs: seq<SubsectionDefinition>)
    requires Generated(defs, data, prompt, generate, xs).Err?
    ensures exists i :: (0 <= i < |xs| &&
      (RelevantData(defs, xs[i].id, data).Err? ||
       (xs[i].id in CriticalIds && !HasFallback(xs[i])
        && Generated(defs, data, prompt, generate, xs).error == CriticalError(xs[i].id))))
  {
    var front := xs[..|xs| - 1];
    var d := xs[|xs| - 1];
    if Generated(defs, data, prompt, generate, front).Err? {
      GenerationErrorCause(defs, data, prompt, generate, front);
      var i :| 0 <= i < |front| &&
        (RelevantData(defs, front[i].id, data).Err? ||
         (front[i].id in CriticalIds && !HasFallback(front[i])
          && Generated(defs, data, prompt, generate, front).error == CriticalError(front[i].id)));
      assert xs[i] == front[i];
    } else {
      assert RelevantData(defs, d.id, data).Err? || (d.id in CriticalIds && !HasFallback(d));
    }
  }
}
