/** Prompt inputs, reply parsing and content validation from llm_handler.py. The LLM client call and
    `json.loads` are foreign code: both are parameters, the parser a partial function from text to a
    JSON object of strings. */
module LlmHandler {
  import opened Wrappers
  import opened Values
  import opened Text

  /** Generated content: a JSON object of strings. */
  type Content = map<string, string>

  /** `json.loads` restricted to objects: the decoded object, or the decoder's error message. */
  type Parser = string -> Result<Content, string>

  // ---------------------------------------------------------------------------
  // validate_content
  // ---------------------------------------------------------------------------

  const RequiredFields: seq<string> := ["headline", "primary_text", "description", "image_description"]

  predicate HasRequiredFields(content: Content) {
    "headline" in content && "primary_text" in content && "description" in content
    && "image_description" in content
  }

  /** The first of `fields` that `content` lacks, scanning in order. */
  function FirstMissing(content: Content, fields: seq<string>): (r: Option<string>)
    ensures r.None? <==> forall i :: 0 <= i < |fields| ==> fields[i] in content
    ensures r.Some? ==>
      exists i :: 0 <= i < |fields| && fields[i] == r.value && r.value !in content
                  && forall j :: 0 <= j < i ==> fields[j] in content
  {
    if fields == [] then None
    else if fields[0] !in content then Some(fields[0])
    else
      var rest := FirstMissing(content, fields[1..]);
      assert rest.None? ==> forall i :: 0 <= i < |fields| ==> fields[i] in content by {
        if rest.None? {
          forall i | 0 <= i < |fields| ensures fields[i] in content {
            if i > 0 { assert fields[i] == fields[1..][i - 1]; }
          }
        }
      }
      assert rest.Some? ==>
        exists i :: 0 <= i < |fields| && fields[i] == rest.value && rest.value !in content
                    && forall j :: 0 <= j < i ==> fields[j] in content
      by {
        if rest.Some? {
          var k :| 0 <= k < |fields| - 1 && fields[1..][k] == rest.value && rest.value !in content
                   && forall j :: 0 <= j < k ==> fields[1..][j] in content;
          forall j | 0 <= j < k + 1 ensures fields[j] in content {
            if j > 0 { assert fields[j] == fields[1..][j - 1]; }
          }
          assert fields[k + 1] == rest.value;
        }
      }
      rest
  }

  /** `validate_content`: raises, naming the first missing required field, unless all four are present;
      extra keys are accepted. */
  function ValidateContent(content: Content): (r: Outcome<string>)
    ensures r.Pass? <==> HasRequiredFields(content)
    ensures r.Fail? ==> exists f :: f in RequiredFields && f !in content
                                    && r.error == "Generated content is missing required field: " + f
    // the field named is the first missing one in the order headline, primary_text, description,
    // image_description
    ensures r.Fail? ==> FirstMissing(content, RequiredFields).Some?
                        && r.error == "Generated content is missing required field: "
                                      + FirstMissing(content, RequiredFields).value
  {
    match FirstMissing(content, RequiredFields)
    case None =>
      assert RequiredFields[0] in content && RequiredFields[1] in content;
      assert RequiredFields[2] in content && RequiredFields[3] in content;
      Pass
    case Some(f) =>
      assert f in RequiredFields;
      Fail("Generated content is missing required field: " + f)
  }

  // ---------------------------------------------------------------------------
  // extract_json_from_text
  // ---------------------------------------------------------------------------

  const NoJsonMessage := "Could not extract valid JSON from LLM response"
  const Fence := "```"
  const JsonFence := "```json"

  /** Why extraction failed: no braces at all, or the decoder's message on the retry. */
  datatype ExtractError = NoJsonFound | DecodeFailed(message: string)

  /** `text[start_idx:end_idx+1]`: the text from the first `{` through the last `}`; Python's slice is
      empty when the last `}` comes before the first `{`. */
  function BraceSpan(text: string): string
    requires '{' in text && '}' in text
  {
    var start, end := IndexOf(text, '{'), LastIndexOf(text, '}');
    if start <= end then text[start..end + 1] else ""
  }

  /** `json_str.replace('```json', '').replace('```', '')`. */
  function StripFences(s: string): string {
    RemoveAll(RemoveAll(s, JsonFence), Fence)
  }

  /** `extract_json_from_text`: parse the brace span; on a decode error, parse it again with the
      markdown fences stripped. */
  function ExtractJson(text: string, parse: Parser): (r: Result<Content, ExtractError>)
    ensures r == Failure(NoJsonFound) <==> '{' !in text || '}' !in text
    ensures r.Success? ==>
      var span := BraceSpan(text);
      || parse(span) == Success(r.value)
      || (parse(span).Failure? && parse(StripFences(span)) == Success(r.value))
    // with both braces present: the span's parse if it decodes, else the retry's parse or its error
    ensures '{' in text && '}' in text ==>
      var span := BraceSpan(text);
      var retry := parse(StripFences(span));
      && (parse(span).Success? ==> r == Success(parse(span).value))
      && (parse(span).Failure? && retry.Success? ==> r == Success(retry.value))
      && (parse(span).Failure? && retry.Failure? ==> r == Failure(DecodeFailed(retry.error)))
  {
    var start, end := IndexOf(text, '{'), LastIndexOf(text, '}');
    if start == -1 || end == -1 then Failure(NoJsonFound)
    else
      var span := BraceSpan(text);
      match parse(span)
      case Success(content) => Success(content)
      case Failure(_) =>
        match parse(StripFences(span))
        case Success(content) => Success(content)
        case Failure(message) => Failure(DecodeFailed(message))
  }

  /** Extraction parses exactly the text from the first `{` through the last `}`, inclusive, and
      retries once on that same text with its fences removed. */
  lemma ExtractParsesBraceSpan(text: string, parse: Parser, i: nat, j: nat)
    requires i <= j < |text|
    requires text[i] == '{' && '{' !in text[..i]
    requires text[j] == '}' && '}' !in text[j + 1..]
    ensures var span := text[i..j + 1];
      ExtractJson(text, parse) ==
        match parse(span)
        case Success(content) => Success(content)
        case Failure(_) =>
          match parse(StripFences(span))
          case Success(content) => Success(content)
          case Failure(message) => Failure(DecodeFailed(message))
  {
    assert text[i] in text && text[j] in text;
    var start, end := IndexOf(text, '{'), LastIndexOf(text, '}');
    assert BraceSpan(text) == text[i..j + 1];
  }

  // ---------------------------------------------------------------------------
  // What fence stripping leaves behind
  // ---------------------------------------------------------------------------

  /** The number of backticks `s` starts with. */
  function LeadingTicks(s: string): (n: nat)
    ensures n <= |s|
  {
    if s != [] && s[0] == '`' then 1 + LeadingTicks(s[1..]) else 0
  }

  /** A fence at the front accounts for three of the leading backticks. */
  lemma LeadingTicksOfFence(s: string)
    requires |s| >= 3 && s[..3] == Fence
    ensures LeadingTicks(s) == 3 + LeadingTicks(s[3..])
  {
    assert s[0] == '`' && s[1..][0] == '`' && s[2..][0] == '`';
    assert s[1..][1..] == s[2..] && s[2..][1..] == s[3..];
    assert LeadingTicks(s[1..]) == 1 + LeadingTicks(s[2..]);
  }

  /** Past a backtick that does not open a fence, at most one more backtick follows. */
  lemma TicksAfterNonFence(s: string)
    requires |s| >= 3 && s[0] == '`' && s[..3] != Fence
    ensures LeadingTicks(s[1..]) <= 1
  {
    var t := s[1..];
    if t[0] == '`' {
      assert s[..3][0] == Fence[0] && s[..3][1] == Fence[1] && |s[..3]| == |Fence|;
      assert s[2] != '`';
      assert t[1..][0] == s[2];
      assert LeadingTicks(t[1..]) == 0;
    }
  }

  /** A leading run of at most one backtick: the first two characters are not both backticks. */
  lemma AtMostOneTick(x: string)
    requires LeadingTicks(x) <= 1
    ensures |x| < 2 || x[0] != '`' || x[1] != '`'
  {
    if |x| >= 2 && x[0] == '`' {
      assert x[1..][0] == x[1];
      assert LeadingTicks(x) == 1 + LeadingTicks(x[1..]);
    }
  }

  /** The leading run of a string with one character put in front. */
  lemma LeadingTicksCons(c: char, rest: string)
    ensures LeadingTicks([c] + rest) == if c == '`' then 1 + LeadingTicks(rest) else 0
  {
    assert ([c] + rest)[1..] == rest;
  }

  /** Proof helper: `k % 3` by repeated subtraction, which the induction below can unfold. */
  function Mod3(k: nat): (m: nat)
    ensures m < 3 && m <= k
  {
    if k < 3 then k else Mod3(k - 3)
  }

  /** Proof helper: `Mod3` is the remainder. */
  lemma {:induction false} Mod3IsRemainder(k: nat)
    ensures Mod3(k) == k % 3
  {
    if k >= 3 {
      Mod3IsRemainder(k - 3);
    }
  }

  /** Proof helper for `LeadingTicksAfterRemoval`: the leading run after removal, in terms of `Mod3`. */
  lemma {:induction false} LeadingTicksAfterRemovalMod3(s: string)
    ensures LeadingTicks(RemoveAll(s, Fence)) == Mod3(LeadingTicks(s))
    decreases |s|
  {
    if |s| < 3 {
      assert RemoveAll(s, Fence) == s;
    } else if s[..3] == Fence {
      assert RemoveAll(s, Fence) == RemoveAll(s[3..], Fence);
      LeadingTicksOfFence(s);
      LeadingTicksAfterRemovalMod3(s[3..]);
    } else {
      var rest := RemoveAll(s[1..], Fence);
      assert RemoveAll(s, Fence) == [s[0]] + rest;
      LeadingTicksAfterRemovalMod3(s[1..]);
      LeadingTicksCons(s[0], rest);
      if s[0] == '`' {
        TicksAfterNonFence(s);
        assert LeadingTicks(s) == 1 + LeadingTicks(s[1..]);
      }
    }
  }

  /** Removing every "```" leaves the leading run of backticks with its length modulo three. */
  lemma LeadingTicksAfterRemoval(s: string)
    ensures LeadingTicks(RemoveAll(s, Fence)) == LeadingTicks(s) % 3
  {
    LeadingTicksAfterRemovalMod3(s);
    Mod3IsRemainder(LeadingTicks(s));
  }

  /** No "```" is left after removing every "```", even where a removal joins two runs of backticks. */
  lemma {:induction false} NoFenceAfterRemoval(s: string)
    ensures !Contains(RemoveAll(s, Fence), Fence)
    decreases |s|
  {
    var r := RemoveAll(s, Fence);
    if |s| < 3 {
      assert r == s;
    } else if s[..3] == Fence {
      NoFenceAfterRemoval(s[3..]);
    } else {
      var rest := RemoveAll(s[1..], Fence);
      NoFenceAfterRemoval(s[1..]);
      assert r == [s[0]] + rest;
      if s[0] == '`' {
        // a single backtick in front cannot meet two more: the rest starts with at most one
        TicksAfterNonFence(s);
        LeadingTicksAfterRemovalMod3(s[1..]);
        AtMostOneTick(rest);
      }
      forall i | 0 <= i <= |r| ensures !OccursAt(r, Fence, i) {
        if i == 0 {
          if |r| >= 3 {
            assert r[..3] == [s[0], rest[0], rest[1]];
          }
        } else if i + 3 <= |r| {
          assert r[i..i + 3] == rest[i - 1..i + 2];
          assert !OccursAt(rest, Fence, i - 1);
        }
      }
    }
  }

  /** The retry string holds neither "```json" nor "```". */
  lemma StripFencesLeavesNoFence(s: string)
    ensures !Contains(StripFences(s), Fence)
    ensures !Contains(StripFences(s), JsonFence)
  {
    var r := StripFences(s);
    NoFenceAfterRemoval(RemoveAll(s, JsonFence));
    forall i | 0 <= i <= |r| && OccursAt(r, JsonFence, i) ensures false {
      assert r[i..i + 3] == r[i..i + 7][..3];
      assert OccursAt(r, Fence, i);
    }
  }

  /** Text without backticks is retried unchanged. */
  lemma StripFencesWithoutBackticks(s: string)
    requires '`' !in s
    ensures StripFences(s) == s
  {
    RemoveAllWithoutFirstChar(s, JsonFence);
    RemoveAllWithoutFirstChar(s, Fence);
  }

  // ---------------------------------------------------------------------------
  // create_campaign_prompt
  // ---------------------------------------------------------------------------

  /** The values `create_campaign_prompt` substitutes into its template. */
  datatype PromptInputs = PromptInputs(
    businessName: Value, businessDescription: Value, productOrService: Value, keySellingPoints: Value,
    ageRange: Value, gender: Value, locations: Value, audienceDescription: Value,
    objective: Value, callToAction: Value)

  /** The brief's fields with their defaults; fails with the exception Python raises when
      `target_audience` is present but not a dictionary. */
  function CampaignPromptInputs(brief: map<string, Value>): (r: Result<PromptInputs, string>)
    ensures r.Failure? <==> "target_audience" in brief && !brief["target_audience"].Obj?
    ensures r.Success? ==>
      var audience := if "target_audience" in brief then brief["target_audience"].fields else map[];
      && r.value.objective == Get(brief, "campaign_objective", Str("CONSIDERATION"))
      && r.value.callToAction == Get(brief, "call_to_action", Str("LEARN_MORE"))
      && r.value.businessName == Get(brief, "business_name", Str(""))
      && r.value.businessDescription == Get(brief, "business_description", Str(""))
      && r.value.productOrService == Get(brief, "product_or_service", Str(""))
      && r.value.keySellingPoints == Get(brief, "key_selling_points", Str(""))
      && r.value.ageRange == Get(audience, "age_range", Str("25-45"))
      && r.value.gender == Get(audience, "gender", Str("ALL"))
      && r.value.locations == Get(audience, "locations", Str("United States"))
      && r.value.audienceDescription == Get(audience, "description", Str(""))
  {
    var audience := Get(brief, "target_audience", Obj(map[]));
    if !audience.Obj? then Failure("AttributeError")
    else
      var a := audience.fields;
      Success(PromptInputs(
        Get(brief, "business_name", Str("")), Get(brief, "business_description", Str("")),
        Get(brief, "product_or_service", Str("")), Get(brief, "key_selling_points", Str("")),
        Get(a, "age_range", Str("25-45")), Get(a, "gender", Str("ALL")),
        Get(a, "locations", Str("United States")), Get(a, "description", Str("")),
        Get(brief, "campaign_objective", Str("CONSIDERATION")), Get(brief, "call_to_action", Str("LEARN_MORE"))))
  }

  /** A brief that says nothing yields the documented defaults. */
  lemma EmptyBriefDefaults()
    ensures CampaignPromptInputs(map[]) == Success(PromptInputs(
      Str(""), Str(""), Str(""), Str(""), Str("25-45"), Str("ALL"), Str("United States"), Str(""),
      Str("CONSIDERATION"), Str("LEARN_MORE")))
  {
  }

  // ---------------------------------------------------------------------------
  // generate_campaign_content
  // ---------------------------------------------------------------------------

  /** The completion call: the reply text for a prompt, or the client's error message. */
  type Completion = PromptInputs -> Result<string, string>


  /** A missing key and a malformed brief are raised as they are; everything raised inside the client
      block is re-raised with a fixed prefix. */
  datatype GenerationError = MissingApiKey | BadBrief(kind: string) | Wrapped(message: string)

  /** `json.loads(content_text)`, falling back to `extract_json_from_text`. */
  function ParseReply(text: string, parse: Parser): (r: Result<Content, string>)
    ensures parse(text).Success? ==> r == parse(text)
    ensures parse(text).Failure? && ('{' !in text || '}' !in text) ==> r == Failure(NoJsonMessage)
    // otherwise the brace span is parsed, then its fence-stripped retry, whose error is passed on
    ensures parse(text).Failure? && '{' in text && '}' in text ==>
      var span := BraceSpan(text);
      var retry := parse(StripFences(span));
      && (parse(span).Success? ==> r == parse(span))
      && (parse(span).Failure? && retry.Success? ==> r == retry)
      && (parse(span).Failure? && retry.Failure? ==> r == Failure(retry.error))
  {
    match parse(text)
    case Success(content) => Success(content)
    case Failure(_) =>
      match ExtractJson(text, parse)
      case Success(content) => Success(content)
      case Failure(NoJsonFound) => Failure(NoJsonMessage)
      case Failure(DecodeFailed(message)) => Failure(message)
  }

  /** What follows the completion: parse the reply, then validate it; a failure of either is reported
      with the prefix, and content is returned only with its four fields. */
  function ReplyContent(text: string, parse: Parser): (r: Result<Content, GenerationError>)
    ensures r.Success? ==> HasRequiredFields(r.value) && ParseReply(text, parse) == Success(r.value)
    ensures ParseReply(text, parse).Failure? ==> r == Failure(Wrapped(ParseReply(text, parse).error))
    ensures ParseReply(text, parse).Success? && HasRequiredFields(ParseReply(text, parse).value) ==>
      r == Success(ParseReply(text, parse).value)
    ensures ParseReply(text, parse).Success? && !HasRequiredFields(ParseReply(text, parse).value) ==>
      exists f :: f in RequiredFields && f !in ParseReply(text, parse).value
                  && r == Failure(Wrapped("Generated content is missing required field: " + f))
    ensures ParseReply(text, parse).Success? && !HasRequiredFields(ParseReply(text, parse).value) ==>
      r == Failure(Wrapped(ValidateContent(ParseReply(text, parse).value).error))
  {
    match ParseReply(text, parse)
    case Failure(message) => Failure(Wrapped(message))
    case Success(content) =>
      match ValidateContent(content)
      case Fail(message) => Failure(Wrapped(message))
      case Pass => Success(content)
  }

  /** `generate_campaign_content`: key check, prompt, completion, parse, validate, in that order. */
  function GenerateCampaignContent(brief: map<string, Value>, apiKey: Option<string>,
                                   complete: Completion, parse: Parser): (r: Result<Content, GenerationError>)
    // a missing key fails before the prompt is built or the client is called
    ensures apiKey.None? || apiKey.value == "" ==> r == Failure(MissingApiKey)
    // content is returned only once it has passed validation
    ensures r.Success? ==> HasRequiredFields(r.value)
    ensures r.Success? ==>
      && CampaignPromptInputs(brief).Success?
      && complete(CampaignPromptInputs(brief).value).Success?
      && ParseReply(complete(CampaignPromptInputs(brief).value).value, parse) == Success(r.value)
    ensures r == Failure(MissingApiKey) <==> apiKey.None? || apiKey.value == ""
    // with a key, a malformed brief is raised as it is, a failing client call is reported with the
    // prefix, and a reply is parsed and validated
    ensures apiKey.Some? && apiKey.value != "" ==>
      && (CampaignPromptInputs(brief).Failure? ==> r == Failure(BadBrief(CampaignPromptInputs(brief).error)))
      && (CampaignPromptInputs(brief).Success? ==>
            var reply := complete(CampaignPromptInputs(brief).value);
            && (reply.Failure? ==> r == Failure(Wrapped(reply.error)))
            && (reply.Success? ==> r == ReplyContent(reply.value, parse)))
  {
    if apiKey.None? || apiKey.value == "" then Failure(MissingApiKey)
    else
      match CampaignPromptInputs(brief)
      case Failure(kind) => Failure(BadBrief(kind))
      case Success(prompt) =>
        match complete(prompt)
        case Failure(message) => Failure(Wrapped(message))
        case Success(text) => ReplyContent(text, parse)
  }
}
