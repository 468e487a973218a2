/** The ICF content validator: the checks run on each generated subsection
    (paragraph count, prohibited language, minimum length) and on the set
    of assembled subsections (the required elements). */
module IcfValidator {
  import opened Text

  /** `ValidationResult`: a verdict with its errors and warnings. */
  datatype ValidationResult = ValidationResult(isValid: bool, errors: seq<string>, warnings: seq<string>)

  /** `PROHIBITED_TERMS`: phrases that must never appear in a consent form. */
  const ProhibitedTerms: seq<string> := [
    "waive",
    "release from liability",
    "you must participate",
    "required to participate",
    "give up your rights",
    "surrender",
    "relinquish"
  ]

  /** The subsections every complete consent form must contain. */
  const RequiredSubsections: seq<string> := [
    "study_purpose_overview",
    "procedures_overview",
    "risks_introduction",
    "benefits",
    "voluntary_participation"
  ]

  /** Content shorter than this, once stripped, is trivial. */
  const MinimumLength := 50

  function ProhibitedError(term: string): string
  {
    "Prohibited term found: '" + term + "'"
  }

  const TooShortError := "Content too short (< 50 characters)"

  function MissingError(key: string): string
  {
    "Missing required subsection: " + key
  }

  // ---------------------------------------------------------------------
  // One subsection

  /** The terms, in list order, that occur in the lower-cased content. */
  function FoundTerms(lowered: string, terms: seq<string>): seq<string>
  {
    if terms == [] then []
    else
      var front := FoundTerms(lowered, terms[..|terms| - 1]);
      var t := terms[|terms| - 1];
      if Contains(lowered, t) then front + [t] else front
  }

  /** One error message per term. */
  function TermErrors(found: seq<string>): (r: seq<string>)
    ensures |r| == |found| && forall k :: 0 <= k < |found| ==> r[k] == ProhibitedError(found[k])
  {
    if found == [] then [] else TermErrors(found[..|found| - 1]) + [ProhibitedError(found[|found| - 1])]
  }

  /** Whether a subsection whose content needs real text has too little. */
  predicate TooShort(content: string, maxParagraphs: int)
  {
    maxParagraphs > 0 && |Strip(content)| < MinimumLength
  }

  /** The errors `validate_subsection` reports: one per prohibited term
      found, then the length error. */
  function SubsectionErrors(content: string, maxParagraphs: int): seq<string>
  {
    TermErrors(FoundTerms(Lower(content), ProhibitedTerms))
      + (if TooShort(content, maxParagraphs) then [TooShortError] else [])
  }

  /** The warning for a subsection with more paragraphs than allowed. */
  function SubsectionWarnings(content: string, maxParagraphs: int): seq<string>
  {
    var n := |Paragraphs(content)|;
    if maxParagraphs > 0 && n > maxParagraphs then
      ["Exceeded max paragraphs: " + NatToString(n) + " > " + IntToString(maxParagraphs)]
    else []
  }

  /** `validate_subsection`, setting the verdict and appending messages as
      each check runs. */
  method ValidateSubsection(content: string, maxParagraphs: int) returns (r: ValidationResult)
    ensures r.errors == SubsectionErrors(content, maxParagraphs)
    ensures r.warnings == SubsectionWarnings(content, maxParagraphs)
    ensures r.isValid <==> r.errors == []
  {
    var isValid := true;
    var errors: seq<string> := [];
    var warnings: seq<string> := [];

    var paragraphs := Paragraphs(content);
    if maxParagraphs > 0 && |paragraphs| > maxParagraphs {
      warnings := warnings + ["Exceeded max paragraphs: " + NatToString(|paragraphs|) + " > " + IntToString(maxParagraphs)];
    }

    var lowered := Lower(content);
    var found := ScanProhibited(lowered);
    if found != [] {
      isValid := false;
      errors := errors + found;
    }

    if maxParagraphs > 0 && |Strip(content)| < 50 {
      isValid := false;
      errors := errors + [TooShortError];
    }
    r := ValidationResult(isValid, errors, warnings);
  }

  /** The loop of `validate_subsection` over the prohibited terms,
      appending one error per term found. */
  method ScanProhibited(lowered: string) returns (errors: seq<string>)
    ensures errors == TermErrors(FoundTerms(lowered, ProhibitedTerms))
  {
    errors := [];
    for i := 0 to |ProhibitedTerms|
      invariant errors == TermErrors(FoundTerms(lowered, ProhibitedTerms[..i]))
    {
      assert ProhibitedTerms[..i + 1][..i] == ProhibitedTerms[..i];
      var term := ProhibitedTerms[i];
      if Contains(lowered, term) {
        errors := errors + [ProhibitedError(term)];
      }
    }
    assert ProhibitedTerms[..|ProhibitedTerms|] == ProhibitedTerms;
  }

  /** A term is reported exactly when it is one of the listed terms and
      occurs; no unlisted term is ever reported. */
  lemma {:induction false} FoundTermsSpec(lowered: string, terms: seq<string>)
    ensures |FoundTerms(lowered, terms)| <= |terms|
    ensures forall t :: t in FoundTerms(lowered, terms) <==> t in terms && Contains(lowered, t)
  {
    if terms != [] {
      var front := terms[..|terms| - 1];
      FoundTermsSpec(lowered, front);
      assert terms == front + [terms[|terms| - 1]];
    }
  }

  /** The content is valid exactly when no prohibited term occurs in it,
      ignoring case, and it is not too short; the paragraph count plays no
      part in the verdict. */
  lemma SubsectionValidIff(content: string, maxParagraphs: int)
    ensures SubsectionErrors(content, maxParagraphs) == [] <==>
      (forall k :: 0 <= k < |ProhibitedTerms| ==> !Contains(Lower(content), ProhibitedTerms[k]))
      && !TooShort(content, maxParagraphs)
  {
    FoundTermsSpec(Lower(content), ProhibitedTerms);
    var found := FoundTerms(Lower(content), ProhibitedTerms);
    if found != [] {
      assert found[0] in found;
    }
  }

  /** Each prohibited term found adds its own error, in list order. */
  lemma OneErrorPerTerm(content: string, maxParagraphs: int)
    ensures var found := FoundTerms(Lower(content), ProhibitedTerms);
      SubsectionErrors(content, maxParagraphs)[..|found|] == TermErrors(found)
      && |SubsectionErrors(content, maxParagraphs)| == |found| + (if TooShort(content, maxParagraphs) then 1 else 0)
  {
  }

  /** Lower-casing maps an occurrence of any casing of a lower-case term to
      an occurrence of the term itself. */
  lemma LowerKeepsOccurrence(content: string, u: string, j: int)
    requires OccursAt(content, u, j)
    ensures OccursAt(Lower(content), Lower(u), j)
  {
    var l := Lower(content);
    assert forall i :: 0 <= i < |u| ==> l[j..j + |u|][i] == LowerChar(u[i]) by {
      forall i | 0 <= i < |u| ensures l[j..j + |u|][i] == LowerChar(u[i]) {
        assert content[j..j + |u|][i] == u[i];
      }
    }
  }

  /** A prohibited term written in any mix of cases makes the content
      invalid. */
  lemma ProhibitedInAnyCase(content: string, maxParagraphs: int, u: string, k: nat)
    requires k < |ProhibitedTerms| && Lower(u) == ProhibitedTerms[k] && Contains(content, u)
    ensures SubsectionErrors(content, maxParagraphs) != []
  {
    var j :| 0 <= j <= |content| - |u| && OccursAt(content, u, j);
    LowerKeepsOccurrence(content, u, j);
    SubsectionValidIff(content, maxParagraphs);
  }

  /** Structural subsections (no paragraph limit) are never warned about
      and never too short. */
  lemma StructuralSkipsLengthChecks(content: string, maxParagraphs: int)
    requires maxParagraphs <= 0
    ensures SubsectionWarnings(content, maxParagraphs) == []
    ensures SubsectionErrors(content, maxParagraphs) == TermErrors(FoundTerms(Lower(content), ProhibitedTerms))
  {
  }

  /** Too many paragraphs only warns: it never adds an error. */
  lemma ExceedingWarnsOnly(content: string, maxParagraphs: int)
    ensures SubsectionWarnings(content, maxParagraphs) != [] <==>
      maxParagraphs > 0 && |Paragraphs(content)| > maxParagraphs
  {
  }

  // ---------------------------------------------------------------------
  // The complete form

  /** `req not in all_content or not all_content[req]`. */
  predicate Missing(all: map<string, string>, key: string)
  {
    key !in all || all[key] == ""
  }

  /** The missing keys, in list order. */
  function MissingKeys(all: map<string, string>, keys: seq<string>): seq<string>
  {
    if keys == [] then []
    else
      var front := MissingKeys(all, keys[..|keys| - 1]);
      var k := keys[|keys| - 1];
      if Missing(all, k) then front + [k] else front
  }

  function MissingErrors(missing: seq<string>): (r: seq<string>)
    ensures |r| == |missing| && forall k :: 0 <= k < |missing| ==> r[k] == MissingError(missing[k])
  {
    if missing == [] then [] else MissingErrors(missing[..|missing| - 1]) + [MissingError(missing[|missing| - 1])]
  }

  /** `validate_complete_icf`. */
  method ValidateCompleteIcf(all: map<string, string>) returns (r: ValidationResult)
    ensures r.errors == MissingErrors(MissingKeys(all, RequiredSubsections))
    ensures r.warnings == []
    ensures r.isValid <==> r.errors == []
  {
    var isValid, errors := CheckRequired(all, RequiredSubsections);
    r := ValidationResult(isValid, errors, []);
  }

  /** The loop of `validate_complete_icf` over the required keys, adding
      one error per key that is absent or empty. */
  method CheckRequired(all: map<string, string>, keys: seq<string>) returns (isValid: bool, errors: seq<string>)
    ensures errors == MissingErrors(MissingKeys(all, keys))
    ensures isValid <==> errors == []
  {
    isValid := true;
    errors := [];
    for i := 0 to |keys|
      invariant errors == MissingErrors(MissingKeys(all, keys[..i]))
      invariant isValid <==> errors == []
    {
      assert keys[..i + 1][..i] == keys[..i];
      var req := keys[i];
      if req !in all || all[req] == "" {
        errors := errors + [MissingError(req)];
        isValid := false;
      }
    }
    assert keys[..|keys|] == keys;
  }

  /** A key is reported missing exactly when it is required and absent or
      empty. */
  lemma {:induction false} MissingKeysSpec(all: map<string, string>, keys: seq<string>)
    ensures |MissingKeys(all, keys)| <= |keys|
    ensures forall k :: k in MissingKeys(all, keys) <==> k in keys && Missing(all, k)
  {
    if keys != [] {
      var front := keys[..|keys| - 1];
      MissingKeysSpec(all, front);
      assert keys == front + [keys[|keys| - 1]];
    }
  }

  /** The form is complete exactly when all five required subsections are
      present and non-empty. */
  lemma CompleteIff(all: map<string, string>)
    ensures MissingKeys(all, RequiredSubsections) == [] <==>
      forall k :: 0 <= k < |RequiredSubsections| ==> RequiredSubsections[k] in all && all[RequiredSubsections[k]] != ""
  {
    MissingKeysSpec(all, RequiredSubsections);
    var missing := MissingKeys(all, RequiredSubsections);
    if missing != [] {
      assert missing[0] in missing;
    } else {
      forall k | 0 <= k < |RequiredSubsections|
        ensures RequiredSubsections[k] in all && all[RequiredSubsections[k]] != ""
      {
        assert RequiredSubsections[k] in RequiredSubsections;
      }
    }
  }
}
