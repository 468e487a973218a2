/** The shared workflow skeleton: the generate / polish / build stage
    sequence of `execute`, the default polish step, the code-fence handling
    in front of JSON decoding, the safe protocol-data lookups and list-item
    formatting. The language models and `json.loads` are parameters. */
module WorkflowBase {
  import opened Wrappers
  import opened Text
  import opened PyValue
  import opened Schema
  import Seqs

  /** A content dictionary as the workflows pass it between stages. */
  type Content = map<string, Value>

  /** How `execute` ends: a document, or one of the two errors it raises. */
  datatype Outcome =
    | Built(doc: UniversalDocument)
    | ContentGenerationError(message: string)
    | DocumentBuildError(message: string)

  // ---------------------------------------------------------------------
  // Stage sequencing

  /** The content after step 2: polished only when the workflow asks for
      polish and a Claude client exists; a failed polish keeps the input. */
  function AfterPolish(requiresPolish: bool, hasClaude: bool, content: Content,
                       polish: Content -> Result<Content, string>): Content
  {
    if requiresPolish && hasClaude then
      match polish(content)
      case Ok(p) => p
      case Err(_) => content
    else content
  }

  /** `execute`: generation, then the optional polish, then the build. The
      outcome of generation is given; polish and build are the workflow's
      own steps, each of which may fail with a message. */
  function Execute(docType: string, requiresPolish: bool, hasClaude: bool,
                   generated: Result<Content, string>,
                   polish: Content -> Result<Content, string>,
                   build: Content -> Result<UniversalDocument, string>): (r: Outcome)
    ensures generated.Err? ==>
      r == ContentGenerationError("Failed to generate " + docType + " content: " + generated.error)
    ensures generated.Ok? ==>
      var c := AfterPolish(requiresPolish, hasClaude, generated.value, polish);
      (build(c).Ok? ==> r == Built(build(c).value)) &&
      (build(c).Err? ==> r == DocumentBuildError("Failed to build " + docType + " document: " + build(c).error))
  {
    match generated
    case Err(e) => ContentGenerationError("Failed to generate " + docType + " content: " + e)
    case Ok(content) =>
      var c := AfterPolish(requiresPolish, hasClaude, content, polish);
      match build(c)
      case Ok(doc) => Built(doc)
      case Err(e) => DocumentBuildError("Failed to build " + docType + " document: " + e)
  }

  /** A document comes out exactly when both generation and the build of
      the (possibly polished) content succeed. */
  lemma ExecuteBuiltIff(docType: string, requiresPolish: bool, hasClaude: bool,
                        generated: Result<Content, string>,
                        polish: Content -> Result<Content, string>,
                        build: Content -> Result<UniversalDocument, string>)
    ensures Execute(docType, requiresPolish, hasClaude, generated, polish, build).Built? <==>
      generated.Ok? && build(AfterPolish(requiresPolish, hasClaude, generated.value, polish)).Ok?
  {
  }

  /** A polish failure is not fatal: the run is the one without polish. */
  lemma PolishFailureIsSwallowed(docType: string, hasClaude: bool, content: Content,
                                 polish: Content -> Result<Content, string>,
                                 build: Content -> Result<UniversalDocument, string>)
    requires polish(content).Err?
    ensures Execute(docType, true, hasClaude, Ok(content), polish, build) ==
            Execute(docType, false, hasClaude, Ok(content), polish, build)
  {
  }

  /** Without the polish flag or without Claude, the polish step is never
      consulted: any two polish functions give the same outcome. */
  lemma PolishSkipped(docType: string, requiresPolish: bool, hasClaude: bool,
                      generated: Result<Content, string>,
                      polish: Content -> Result<Content, string>,
                      polish': Content -> Result<Content, string>,
                      build: Content -> Result<UniversalDocument, string>)
    requires !(requiresPolish && hasClaude)
    ensures Execute(docType, requiresPolish, hasClaude, generated, polish, build) ==
            Execute(docType, requiresPolish, hasClaude, generated, polish', build)
  {
  }

  // ---------------------------------------------------------------------
  // Code fences before JSON decoding

  /** A line opening or closing a Markdown code block. */
  predicate IsFence(line: string) { StartsWith(line, "```") }

  /** The first index at or after `i` whose line is a fence, or |lines|. */
  function FirstFenceFrom(lines: seq<string>, i: nat): (e: nat)
    requires i <= |lines|
    ensures i <= e <= |lines|
    ensures e < |lines| ==> IsFence(lines[e])
    ensures forall k :: i <= k < e ==> !IsFence(lines[k])
    decreases |lines| - i
  {
    if i == |lines| then i
    else if IsFence(lines[i]) then i
    else FirstFenceFrom(lines, i + 1)
  }

  /** The text that `_parse_json_response` hands to `json.loads`: the
      stripped reply, or, when it opens with a fence, the lines after the
      opening line up to (not including) the next fence line. */
  function JsonText(response: string): string
  {
    var s := Strip(response);
    if IsFence(s) then
      var lines := Split(s, "\n");
      Strip(Join(lines[1..FirstFenceFrom(lines, 1)], "\n"))
    else s
  }

  /** The line scan of `_parse_json_response`, with its mutable start and
      end indices. */
  method ParseJsonText(response: string) returns (text: string)
    ensures text == JsonText(response)
  {
    text := Strip(response);
    if IsFence(text) {
      var lines := Split(text, "\n");
      assert IsFence(lines[0]) by { SplitKeepsPrefix(text, '\n', "```"); }
      var startIdx, endIdx := 0, |lines|;
      var i := 0;
      while i < |lines|
        invariant 0 <= i <= |lines|
        invariant i > 0 ==> startIdx == 1
        invariant endIdx == |lines|
        invariant forall k :: 1 <= k < i ==> !IsFence(lines[k])
      {
        if IsFence(lines[i]) && i == 0 {
          startIdx := 1;
        } else if IsFence(lines[i]) && i > 0 {
          endIdx := i;
          break;
        }
        i := i + 1;
      }
      assert endIdx == FirstFenceFrom(lines, 1) by { FirstFenceUnique(lines, 1, endIdx); }
      text := Strip(Join(lines[startIdx..endIdx], "\n"));
    }
  }

  /** A split keeps, in its first piece, any prefix of the text that has
      no separator in it. */
  lemma SplitKeepsPrefix(s: string, c: char, p: string)
    requires p <= s && forall i :: 0 <= i < |p| ==> p[i] != c
    ensures p <= Split(s, [c])[0]
  {
    var k := IndexOf(s, [c]);
    if k >= 0 {
      assert OccursAt(s, [c], k);
      assert s[k..k + 1] == [s[k]];
      assert forall j :: 0 <= j < |p| ==> s[j] == p[j];
      assert Split(s, [c])[0] == s[..k];
    } else {
      assert Split(s, [c]) == [s];
    }
  }

  /** A text without the character has no occurrence of it. */
  lemma NoCharNoIndex(s: string, c: char)
    requires forall i :: 0 <= i < |s| ==> s[i] != c
    ensures IndexOf(s, [c]) < 0
  {
    forall j | 0 <= j < |s| ensures !OccursAt(s, [c], j) {
      assert s[j..j + 1] == [s[j]];
    }
  }

  /** The first fence at or after `i` is characterised by its two halves. */
  lemma {:induction false} FirstFenceUnique(lines: seq<string>, i: nat, e: nat)
    requires i <= e <= |lines|
    requires e < |lines| ==> IsFence(lines[e])
    requires forall k :: i <= k < e ==> !IsFence(lines[k])
    ensures FirstFenceFrom(lines, i) == e
    decreases |lines| - i
  {
    if i < e {
      FirstFenceUnique(lines, i + 1, e);
    }
  }

  /** A reply with no opening fence is decoded from its stripped text. */
  lemma JsonTextUnfenced(response: string)
    requires !IsFence(Strip(response))
    ensures JsonText(response) == Strip(response)
  {
  }

  /** Splitting on a one-character separator distributes over a
      concatenation at that separator. */
  lemma {:induction false} SplitConcat(a: string, c: char, b: string)
    ensures Split(a + [c] + b, [c]) == Split(a, [c]) + Split(b, [c])
    decreases |a|
  {
    var s := a + [c] + b;
    var k := IndexOf(a, [c]);
    if k < 0 {
      FirstCharAtEnd(a, c, b);
      SplitAt(s, [c], |a|);
      SlicesAtEnd(a, c, b);
      SplitNoSeparator(a, [c]);
    } else {
      var a' := a[k + 1..];
      FirstCharInside(a, c, b, k);
      SplitAt(s, [c], k);
      SplitAt(a, [c], k);
      SlicesAround(a, c, b, k);
      SplitConcat(a', c, b);
      Seqs.Assoc3([a[..k]], Split(a', [c]), Split(b, [c]));
    }
  }

  /** Cutting `a + [c] + b` inside `a`. */
  lemma SlicesAround(a: string, c: char, b: string, k: nat)
    requires k < |a|
    ensures (a + [c] + b)[..k] == a[..k] && (a + [c] + b)[k + 1..] == a[k + 1..] + [c] + b
  {
  }

  /** Cutting `a + [c] + b` at the added character. */
  lemma SlicesAtEnd(a: string, c: char, b: string)
    ensures (a + [c] + b)[..|a|] == a && (a + [c] + b)[|a| + 1..] == b
  {
  }

  /** One step of `Split` at the first occurrence. */
  lemma SplitAt(s: string, sep: string, k: nat)
    requires sep != [] && IndexOf(s, sep) == k
    ensures k + |sep| <= |s| && Split(s, sep) == [s[..k]] + Split(s[k + |sep|..], sep)
  {
  }

  /** In `a + [c] + b` with no `c` in `a`, the first `c` is the one added. */
  lemma FirstCharAtEnd(a: string, c: char, b: string)
    requires IndexOf(a, [c]) < 0
    ensures IndexOf(a + [c] + b, [c]) == |a|
  {
    var s := a + [c] + b;
    assert OccursAt(s, [c], |a|);
    forall j | 0 <= j < |a| ensures !OccursAt(s, [c], j) {
      assert !OccursAt(a, [c], j);
      assert s[j..j + 1] == a[j..j + 1];
    }
    IndexOfUnique(s, [c], |a|);
  }

  /** In `a + [c] + b`, a first `c` inside `a` is the first of the whole. */
  lemma FirstCharInside(a: string, c: char, b: string, k: nat)
    requires IndexOf(a, [c]) == k
    ensures IndexOf(a + [c] + b, [c]) == k
  {
    var s := a + [c] + b;
    assert a[k..k + 1] == s[k..k + 1];
    forall j | 0 <= j < k ensures !OccursAt(s, [c], j) {
      assert !OccursAt(a, [c], j);
      assert s[j..j + 1] == a[j..j + 1];
    }
    IndexOfUnique(s, [c], k);
  }

  /** `find` returns the first occurrence. */
  lemma IndexOfUnique(s: string, sep: string, k: nat)
    requires OccursAt(s, sep, k) && forall j :: 0 <= j < k ==> !OccursAt(s, sep, j)
    ensures IndexOf(s, sep) == k
  {
  }

  /** The lines of a fenced block: the opening line, the body's lines and
      the closing fence. */
  lemma FencedLines(opening: string, body: string)
    requires forall i :: 0 <= i < |opening| ==> opening[i] != '\n'
    ensures Split(opening + "\n" + body + "\n```", "\n") == [opening] + Split(body, "\n") + ["```"]
  {
    FencedShape(opening, body);
    SplitAfterLine(opening, body + "\n" + "```");
    FenceHasNoNewline();
    SplitBeforeLine(body, "```");
  }

  lemma FenceHasNoNewline()
    ensures forall i :: 0 <= i < |"```"| ==> "```"[i] != '\n'
  {
  }

  lemma FencedShape(opening: string, body: string)
    ensures opening + "\n" + body + "\n```" == opening + "\n" + (body + "\n" + "```")
  {
  }

  /** A first line without a newline is the first piece of the split. */
  lemma SplitAfterLine(a: string, rest: string)
    requires forall i :: 0 <= i < |a| ==> a[i] != '\n'
    ensures Split(a + "\n" + rest, "\n") == [a] + Split(rest, "\n")
  {
    SplitConcat(a, '\n', rest);
    NoCharNoIndex(a, '\n');
    SplitNoSeparator(a, "\n");
  }

  /** A last line without a newline is the last piece of the split. */
  lemma SplitBeforeLine(b: string, z: string)
    requires forall i :: 0 <= i < |z| ==> z[i] != '\n'
    ensures Split(b + "\n" + z, "\n") == Split(b, "\n") + [z]
  {
    SplitConcat(b, '\n', z);
    NoCharNoIndex(z, '\n');
    SplitNoSeparator(z, "\n");
  }

  /** In a fenced block whose body has no fence line, the closing fence is
      the first fence after the opening line. */
  lemma FencedBody(opening: string, mid: seq<string>)
    requires forall k :: 0 <= k < |mid| ==> !IsFence(mid[k])
    ensures var lines := [opening] + mid + ["```"];
      FirstFenceFrom(lines, 1) == 1 + |mid| && lines[1..1 + |mid|] == mid
  {
    var lines := [opening] + mid + ["```"];
    assert lines[1 + |mid|] == "```";
    assert forall k :: 1 <= k < 1 + |mid| ==> lines[k] == mid[k - 1];
    FirstFenceUnique(lines, 1, 1 + |mid|);
  }

  /** Wrapping a body in a fenced block (an opening line with any language
      tag, a closing fence line) and decoding it gives back the stripped
      body, provided no line of the body is itself a fence. */
  lemma FencedRoundTrip(tag: string, body: string)
    requires forall i :: 0 <= i < |tag| ==> tag[i] != '\n'
    requires forall k :: 0 <= k < |Split(body, "\n")| ==> !IsFence(Split(body, "\n")[k])
    ensures JsonText("```" + tag + "\n" + body + "\n```") == Strip(body)
  {
    var opening := "```" + tag;
    var s := opening + "\n" + body + "\n```";
    assert s[0] == '`' && s[|s| - 1] == '`';
    StripKeepsEnds(s);
    assert "```" <= s;
    FencedLines(opening, body);
    var mid := Split(body, "\n");
    FencedBody(opening, mid);
  }

  /** A text that starts and ends with a non-space character is stripped. */
  lemma StripKeepsEnds(s: string)
    requires s != [] && !IsSpace(s[0]) && !IsSpace(s[|s| - 1])
    ensures Strip(s) == s
  {
    StripSetSpec(s, Whitespace);
  }

  // ---------------------------------------------------------------------
  // Default polish

  /** The default `polish_content`: without Claude, or when the call or the
      decoding fails, the content comes back unchanged; otherwise the
      decoded reply replaces it. `decode` stands for `json.loads`. */
  function DefaultPolish(hasClaude: bool, content: Content, reply: Result<string, string>,
                         decode: string -> Option<Content>): (r: Content)
    ensures !hasClaude || reply.Err? ==> r == content
    ensures hasClaude && reply.Ok? && decode(JsonText(reply.value)).None? ==> r == content
    ensures hasClaude && reply.Ok? && decode(JsonText(reply.value)).Some? ==>
              r == decode(JsonText(reply.value)).value
  {
    if !hasClaude then content
    else match reply
      case Err(_) => content
      case Ok(text) =>
        match decode(JsonText(text))
        case None => content
        case Some(polished) => polished
  }

  // ---------------------------------------------------------------------
  // Filling missing sections from the fallback content

  /** `[s for s in keys if not content.get(s)]`. */
  function MissingSections(content: Content, keys: seq<string>): seq<string>
  {
    if keys == [] then []
    else
      MissingSections(content, keys[..|keys| - 1])
        + (if Truthy(Get(content, keys[|keys| - 1], VNone)) then [] else [keys[|keys| - 1]])
  }

  /** The content after `content[k] = fallback.get(k, "")` for each key
      in turn. */
  function FilledFrom(content: Content, fallback: Content, keys: seq<string>): Content
  {
    if keys == [] then content
    else
      var k := keys[|keys| - 1];
      FilledFrom(content, fallback, keys[..|keys| - 1])[k := Get(fallback, k, VStr(""))]
  }

  /** The loop of `generate_content` that fills each of the given
      sections left empty from the fallback. */
  method FillMissing(verbatim: Content, fallback: Content, keys: seq<string>) returns (content: Content)
    ensures content == FilledFrom(verbatim, fallback, MissingSections(verbatim, keys))
  {
    var missing := MissingSections(verbatim, keys);
    content := verbatim;
    for i := 0 to |missing|
      invariant content == FilledFrom(verbatim, fallback, missing[..i])
    {
      assert missing[..i + 1][..i] == missing[..i];
      content := content[missing[i] := Get(fallback, missing[i], VStr(""))];
    }
    assert missing[..|missing|] == missing;
  }

  /** A key is missing exactly when it is listed and its value is falsy
      or absent. */
  lemma {:induction false} MissingSectionsSpec(content: Content, keys: seq<string>)
    ensures forall s :: s in MissingSections(content, keys) <==> s in keys && !Truthy(Get(content, s, VNone))
  {
    if keys != [] {
      MissingSectionsSpec(content, keys[..|keys| - 1]);
      assert keys == keys[..|keys| - 1] + [keys[|keys| - 1]];
    }
  }

  /** Every filled key holds its fallback value (or ""); every other key
      is untouched. */
  lemma {:induction false} FilledFromSpec(content: Content, fallback: Content, keys: seq<string>)
    ensures forall k :: k in keys ==>
      k in FilledFrom(content, fallback, keys) && FilledFrom(content, fallback, keys)[k] == Get(fallback, k, VStr(""))
    ensures forall k :: k !in keys ==> (k in FilledFrom(content, fallback, keys) <==> k in content)
    ensures forall k :: k !in keys && k in content ==> FilledFrom(content, fallback, keys)[k] == content[k]
  {
    if keys != [] {
      FilledFromSpec(content, fallback, keys[..|keys| - 1]);
      assert keys == keys[..|keys| - 1] + [keys[|keys| - 1]];
    }
  }

  // ---------------------------------------------------------------------
  // Field access shared by the section builders

  /** A text field read with `content.get(key, "")` and replaced by the
      default when falsy. A truthy value that is not a string fails where
      the builder uses it as one. */
  function FieldText(v: Value, default: string): Result<string, string>
  {
    if !Truthy(v) then Ok(default)
    else if v.VStr? then Ok(v.s)
    else Err("expected a string, got " + Str(v))
  }

  /** Python's `for x in v` over a truthy value: a list yields its items,
      a string its characters, and a scalar is not iterable. */
  function Iterated(v: Value): Result<seq<Value>, string>
  {
    match v
    case VList(xs) => Ok(xs)
    case VStr(s) => Ok(seq(|s|, i requires 0 <= i < |s| => VStr([s[i]])))
    case VDict(_) => Err("iteration over a dict is not modelled")
    case _ => Err("object is not iterable")
  }

  /** One more chunk adds its stripped paragraph, unless it is blank. */
  lemma ChunkParagraphsStep(chunks: seq<string>, i: nat)
    requires i < |chunks|
    ensures ParagraphBlocks(NonBlankStripped(chunks[..i + 1]), 6) == ParagraphBlocks(NonBlankStripped(chunks[..i]), 6)
      + (if Strip(chunks[i]) == [] then [] else [Para(Strip(chunks[i]), 0, 6)])
  {
    assert chunks[..i + 1] == chunks[..i] + [chunks[i]];
    NonBlankStrippedSnoc(chunks[..i], chunks[i]);
    var before := NonBlankStripped(chunks[..i]);
    var p := Strip(chunks[i]);
    if p != [] {
      assert (before + [p])[..|before|] == before;
    } else {
      assert before + [] == before;
    }
  }

  /** The recurring loop over `text.split("\n\n")` that adds a paragraph
      for each chunk that is not blank once stripped. */
  method BuildChunkParagraphs(chunks: seq<string>) returns (blocks: seq<ContentBlock>)
    ensures blocks == ParagraphBlocks(NonBlankStripped(chunks), 6)
  {
    blocks := [];
    for i := 0 to |chunks|
      invariant blocks == ParagraphBlocks(NonBlankStripped(chunks[..i]), 6)
    {
      ChunkParagraphsStep(chunks, i);
      var p := Strip(chunks[i]);
      if p != [] {
        blocks := blocks + [Para(p, 0, 6)];
      }
    }
    assert chunks[..|chunks|] == chunks;
  }

  // ---------------------------------------------------------------------
  // Safe lookups in protocol data

  /** `_get_metadata_value` and its siblings: `protocol_data.get(sub, {})`,
      then `.get(key, default)` if that is a dict, else the default. */
  function SubValue(protocolData: Content, sub: string, key: string, default: Value): (r: Value)
    ensures sub in protocolData && protocolData[sub].VDict? && key in protocolData[sub].fields ==>
              r == protocolData[sub].fields[key]
    ensures !(sub in protocolData && protocolData[sub].VDict? && key in protocolData[sub].fields) ==>
              r == default
  {
    var s := Get(protocolData, sub, VDict(map[]));
    if s.VDict? then Get(s.fields, key, default) else default
  }

  function GetMetadataValue(protocolData: Content, key: string, default: Value): Value
  {
    SubValue(protocolData, "metadata", key, default)
  }

  function GetDesignValue(protocolData: Content, key: string, default: Value): Value
  {
    SubValue(protocolData, "design", key, default)
  }

  function GetIpValue(protocolData: Content, key: string, default: Value): Value
  {
    SubValue(protocolData, "investigational_product", key, default)
  }

  /** A stored `None` is returned as it is, not replaced by the default. */
  lemma StoredNoneIsReturned(protocolData: Content, key: string, default: Value)
    requires "metadata" in protocolData && protocolData["metadata"] == VDict(map[key := VNone])
    ensures GetMetadataValue(protocolData, key, default) == VNone
  {
  }

  // ---------------------------------------------------------------------
  // List items

  /** Python's `a or b or c`: the first truthy operand, else the last. */
  function Or3(a: Value, b: Value, c: Value): (r: Value)
    ensures Truthy(r) <==> Truthy(a) || Truthy(b) || Truthy(c)
    ensures Truthy(a) ==> r == a
    ensures !Truthy(a) && Truthy(b) ==> r == b
    ensures !Truthy(a) && !Truthy(b) ==> r == c
  {
    if Truthy(a) then a else if Truthy(b) then b else c
  }

  /** What the loop of `_format_list_items` appends for one item: nothing
      for a dict without text, content or name, one string otherwise. */
  function ItemPiece(item: Value): seq<string>
  {
    match item
    case VStr(s) => [Strip(s)]
    case VDict(f) =>
      var text := Or3(Get(f, "text", VStr("")), Get(f, "content", VStr("")), Get(f, "name", VStr("")));
      if Truthy(text) then [Strip(Str(text))] else []
    case _ => [Strip(Str(item))]
  }

  /** The list built by the loop, before empty strings are filtered. */
  function Formatted(items: seq<Value>): seq<string>
  {
    if items == [] then [] else Formatted(items[..|items| - 1]) + ItemPiece(items[|items| - 1])
  }

  /** `[item for item in xs if item]`. */
  function NonEmpty(xs: seq<string>): seq<string>
  {
    if xs == [] then [] else NonEmpty(xs[..|xs| - 1]) + (if xs[|xs| - 1] != "" then [xs[|xs| - 1]] else [])
  }

  /** `_format_list_items`: the accumulating loop, then the filter. */
  method FormatListItems(items: seq<Value>) returns (r: seq<string>)
    ensures r == NonEmpty(Formatted(items))
  {
    var formatted: seq<string> := [];
    for i := 0 to |items|
      invariant formatted == Formatted(items[..i])
    {
      assert items[..i + 1][..i] == items[..i];
      formatted := formatted + ItemPiece(items[i]);
    }
    assert items[..|items|] == items;
    r := [];
    for j := 0 to |formatted|
      invariant r == NonEmpty(formatted[..j])
    {
      assert formatted[..j + 1][..j] == formatted[..j];
      if formatted[j] != "" {
        r := r + [formatted[j]];
      }
    }
    assert formatted[..|formatted|] == formatted;
  }

  /** Each item contributes at most one string. */
  lemma {:induction false} FormattedLength(items: seq<Value>)
    ensures |Formatted(items)| <= |items|
  {
    if items != [] {
      FormattedLength(items[..|items| - 1]);
    }
  }

  /** The filter keeps only non-empty strings, and no more of them than
      it was given. */
  lemma {:induction false} NonEmptySpec(xs: seq<string>)
    ensures |NonEmpty(xs)| <= |xs|
    ensures forall k :: 0 <= k < |NonEmpty(xs)| ==> NonEmpty(xs)[k] != ""
  {
    if xs != [] {
      var front, last := xs[..|xs| - 1], xs[|xs| - 1];
      NonEmptySpec(front);
      if last != "" {
        assert NonEmpty(xs) == NonEmpty(front) + [last];
      } else {
        assert NonEmpty(xs) == NonEmpty(front);
      }
    }
  }

  /** A list without empty strings passes the filter unchanged. */
  lemma {:induction false} NonEmptyKeepsAll(xs: seq<string>)
    requires forall k :: 0 <= k < |xs| ==> xs[k] != ""
    ensures NonEmpty(xs) == xs
  {
    if xs != [] {
      var front, last := xs[..|xs| - 1], xs[|xs| - 1];
      assert forall k :: 0 <= k < |front| ==> front[k] == xs[k];
      NonEmptyKeepsAll(front);
      assert NonEmpty(xs) == front + [last];
    }
  }

  /** The formatted list has no empty strings and is no longer than the
      input. */
  lemma FormatListItemsBounds(items: seq<Value>)
    ensures |NonEmpty(Formatted(items))| <= |items|
    ensures forall k :: 0 <= k < |NonEmpty(Formatted(items))| ==> NonEmpty(Formatted(items))[k] != ""
  {
    FormattedLength(items);
    NonEmptySpec(Formatted(items));
  }

  /** Non-blank string items come out stripped, one for one, in order. */
  lemma {:induction false} FormattedStrings(items: seq<Value>)
    requires forall k :: 0 <= k < |items| ==> items[k].VStr? && !IsBlank(items[k].s)
    ensures |Formatted(items)| == |items|
    ensures forall k :: 0 <= k < |items| ==> Formatted(items)[k] == Strip(items[k].s) != ""
  {
    if items != [] {
      var front, last := items[..|items| - 1], items[|items| - 1];
      assert forall k :: 0 <= k < |front| ==> front[k] == items[k];
      FormattedStrings(front);
      StripEmptyIffBlank(last.s);
      FormattedSnocString(items);
      var r := Formatted(items);
      forall k | 0 <= k < |items|
        ensures r[k] == Strip(items[k].s) != ""
      {
        if k < |front| {
          assert r[k] == Formatted(front)[k];
        }
      }
    }
  }

  /** A string item adds its stripped text. */
  lemma FormattedSnocString(items: seq<Value>)
    requires items != [] && items[|items| - 1].VStr?
    ensures Formatted(items) == Formatted(items[..|items| - 1]) + [Strip(items[|items| - 1].s)]
  {
  }

  lemma FormatListItemsOfStrings(items: seq<Value>)
    requires forall k :: 0 <= k < |items| ==> items[k].VStr? && !IsBlank(items[k].s)
    ensures NonEmpty(Formatted(items)) == Formatted(items)
    ensures |Formatted(items)| == |items|
    ensures forall k :: 0 <= k < |items| ==> Formatted(items)[k] == Strip(items[k].s)
  {
    FormattedStrings(items);
    NonEmptyKeepsAll(Formatted(items));
  }

  /** A dict item takes its text from the first truthy of "text",
      "content" and "name"; a dict with none of them contributes nothing. */
  lemma DictItemPiece(f: map<string, Value>)
    ensures "text" in f && Truthy(f["text"]) ==> ItemPiece(VDict(f)) == [Strip(Str(f["text"]))]
    ensures ("text" !in f || !Truthy(f["text"])) && "content" in f && Truthy(f["content"]) ==>
              ItemPiece(VDict(f)) == [Strip(Str(f["content"]))]
    ensures (forall k :: k in f && k in {"text", "content", "name"} ==> !Truthy(f[k])) ==>
              ItemPiece(VDict(f)) == []
  {
  }
}
