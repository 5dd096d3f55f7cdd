/**
 * The analyze-image edge function (supabase/functions/analyze-image/index.ts):
 * request gating, extraction of a JSON object from the model's text reply, the
 * fallback record, in-place validation of three fields, and the mapping of
 * failures to error responses.
 *
 * The HTTP call to the model provider is a parameter (`provider`), and so is
 * `JSON.parse` (`parse`): a partial map from text to a JSON object.
 */
module AnalysisService {
  import opened Wrappers
  import opened JsSemantics
  import opened Types

  type Fields = map<string, JsValue>
  type JsonParser = string -> Option<Fields>

  const DetectedItem: string := "Detected Item"
  const DefaultConfidence: JsValue := JNum(Finite(75.0))
  const ProviderErrorDefault: string := "OpenAI API error"

  /** The three properties the validation step may rewrite. */
  const ValidatedKeys: set<string> := {"objectName", "classification", "confidence"}

  // ---------------------------------------------------------------------------
  // Extraction: `content.match(/\{[\s\S]*\}/)`

  /** A match `content[start..end]`. */
  datatype Span = Span(start: nat, end: nat)

  /**
   * Greedy `[\s\S]*\}` after an opening brace at `lo`: the matcher first takes the
   * whole rest of the text and backs off one character at a time, so the closing
   * brace it settles on is the last `}` before `k`.
   */
  function BackOffToClose(s: string, lo: nat, k: nat): (r: Option<nat>)
    requires lo < k <= |s|
    decreases k
    ensures r.Some? ==> lo < r.value < k && s[r.value] == '}'
    ensures r.Some? ==> forall j :: r.value < j < k ==> s[j] != '}'
    ensures r.None? ==> forall j :: lo < j < k ==> s[j] != '}'
  {
    if k == lo + 1 then None
    else if s[k - 1] == '}' then Some(k - 1)
    else BackOffToClose(s, lo, k - 1)
  }

  /**
   * The regex engine's scan: try each start position from `i` on, in order, and
   * stop at the first one where the pattern matches.
   */
  function MatchFrom(s: string, i: nat): (r: Option<Span>)
    requires i <= |s|
    decreases |s| - i
    ensures r.Some? ==> i <= r.value.start < r.value.end - 1 < |s|
    ensures r.Some? ==> s[r.value.start] == '{' && s[r.value.end - 1] == '}'
    ensures r.Some? ==> forall k :: i <= k < r.value.start ==> s[k] != '{'
    ensures r.Some? ==> forall k :: r.value.end <= k < |s| ==> s[k] != '}'
    ensures r.None? ==> forall a, b :: i <= a < b < |s| && s[a] == '{' ==> s[b] != '}'
  {
    if i == |s| then None
    else if s[i] == '{' && BackOffToClose(s, i, |s|).Some? then
      Some(Span(i, BackOffToClose(s, i, |s|).value + 1))
    else MatchFrom(s, i + 1)
  }

  /** `jsonMatch[0]`, or `None` when the pattern does not match. */
  function JsonMatch(content: string): (r: Option<string>)
    ensures r.Some? ==> |r.value| >= 2 && r.value[0] == '{' && r.value[|r.value| - 1] == '}'
    ensures r.None? <==> !exists a, b :: 0 <= a < b < |content| && content[a] == '{' && content[b] == '}'
  {
    match MatchFrom(content, 0)
    case None => None
    case Some(span) => Some(content[span.start..span.end])
  }

  /**
   * The greedy match is exactly the text from the first `{` to the last `}`,
   * and there is none when the last `}` does not come after the first `{`.
   */
  lemma JsonMatchIsFirstOpenToLastClose(content: string)
    ensures JsonMatch(content) ==
      match (IndexOf(content, '{'), LastIndexOf(content, '}'))
      case (Some(i), Some(j)) => if i < j then Some(content[i..j + 1]) else None
      case _ => None
  {
    var open, close := IndexOf(content, '{'), LastIndexOf(content, '}');
    match MatchFrom(content, 0)
    case None =>
      if open.Some? && close.Some? {
        assert content[open.value] == '{' && content[close.value] == '}';
        assert open.value >= close.value;
      }
      assert JsonMatch(content) == None;
    case Some(span) =>
      IndexOfFirst(content, '{', span.start);
      LastIndexOfLast(content, '}', span.end - 1);
      assert JsonMatch(content) == Some(content[span.start..span.end]);
  }

  /** `IndexOf` finds the first occurrence. */
  lemma {:induction false} IndexOfFirst(s: string, c: char, i: nat)
    requires i < |s| && s[i] == c
    requires forall k :: 0 <= k < i ==> s[k] != c
    ensures IndexOf(s, c) == Some(i)
  {
    if i > 0 {
      IndexOfFirst(s[1..], c, i - 1);
    }
  }

  /** `LastIndexOf` finds the last occurrence. */
  lemma {:induction false} LastIndexOfLast(s: string, c: char, i: nat)
    requires i < |s| && s[i] == c
    requires forall k :: i < k < |s| ==> s[k] != c
    ensures LastIndexOf(s, c) == Some(i)
  {
    if i < |s| - 1 {
      LastIndexOfLast(s[..|s| - 1], c, i);
    }
  }

  // ---------------------------------------------------------------------------
  // The fallback record

  /** `content.substring(0, 150) + '...'`. */
  function Excerpt(content: string): (r: string)
    ensures 3 <= |r| <= 153 && r[|r| - 3..] == "..."
    ensures r[..|r| - 3] <= content
    ensures |content| >= 150 ==> |r| == 153
    ensures |content| < 150 ==> r[..|r| - 3] == content
  {
    (if |content| <= 150 then content else content[..150]) + "..."
  }

  function StringArray(xs: seq<string>): (r: JsValue)
    ensures r.JArray? && |r.items| == |xs|
    ensures forall k :: 0 <= k < |xs| ==> r.items[k] == JStr(xs[k])
  {
    JArray(seq(|xs|, k requires 0 <= k < |xs| => JStr(xs[k])))
  }

  const FallbackDisposalTips: seq<string> := [
    "Check local waste disposal guidelines",
    "Consider if item can be repaired or repurposed",
    "Look for specialized recycling programs",
    "Dispose of responsibly at waste management facility"]

  const FallbackReuseSuggestions: seq<string> := [
    "Consider creative repurposing projects",
    "Use for storage or organization",
    "Transform into decorative items",
    "Repurpose for gardening activities"]

  const FallbackFacts: seq<string> := [
    "Many items have hidden recycling potential",
    "Proper disposal prevents environmental contamination",
    "Reusing items reduces manufacturing demand"]

  /**
   * The record built when no JSON could be read from the reply; `content` is the
   * reply text, or "" when there was none.
   */
  function Fallback(content: string): Fields {
    map[
      "objectName" := JStr(DetectedItem),
      "classification" := JStr("non-recyclable"),
      "confidence" := DefaultConfidence,
      "materials" := StringArray(["Unknown Material"]),
      "environmentalImpact" := JObject(map[
        "carbonFootprint" := JStr("Medium"),
        "recyclability" := JStr("Medium"),
        "biodegradability" := JStr("Low")]),
      "disposalTips" := StringArray(FallbackDisposalTips),
      "reuseSuggestions" := StringArray(FallbackReuseSuggestions),
      "educationalFacts" := StringArray(FallbackFacts + [Excerpt(content)])
    ]
  }

  /**
   * The fallback record has exactly the eight properties: a "Detected Item",
   * "non-recyclable", confidence 75, one unknown material, a Medium/Medium/Low
   * impact, four tips, four suggestions and four facts, the last quoting the
   * excerpt of the content.
   */
  lemma FallbackContents(content: string)
    ensures Fallback(content).Keys == {"objectName", "classification", "confidence", "materials",
      "environmentalImpact", "disposalTips", "reuseSuggestions", "educationalFacts"}
    ensures Fallback(content)["objectName"] == JStr(DetectedItem) && Fallback(content)["confidence"] == DefaultConfidence
    ensures Fallback(content)["classification"] == JStr("non-recyclable")
    ensures Fallback(content)["materials"] == StringArray(["Unknown Material"])
    ensures Fallback(content)["environmentalImpact"] == JObject(map[
      "carbonFootprint" := JStr("Medium"), "recyclability" := JStr("Medium"), "biodegradability" := JStr("Low")])
    ensures Fallback(content)["educationalFacts"].JArray? && |Fallback(content)["educationalFacts"].items| == 4
    ensures Fallback(content)["educationalFacts"].items[3] == JStr(Excerpt(content))
    ensures Fallback(content)["educationalFacts"] == StringArray(FallbackFacts + [Excerpt(content)]) && |FallbackFacts| == 3
    ensures Fallback(content)["disposalTips"] == StringArray(FallbackDisposalTips) && |FallbackDisposalTips| == 4
    ensures Fallback(content)["reuseSuggestions"] == StringArray(FallbackReuseSuggestions) && |FallbackReuseSuggestions| == 4
  {
  }

  /**
   * `analysisResult` before validation. With no reply text, `content.match`
   * throws and the fallback uses "". With no match, or a candidate `parse`
   * rejects, the fallback quotes the reply text.
   */
  function Extracted(content: Option<string>, parse: JsonParser): (r: Fields)
    ensures content.None? ==> r == Fallback("")
    ensures content.Some? && JsonMatch(content.value).None? ==> r == Fallback(content.value)
    ensures content.Some? && JsonMatch(content.value).Some? && parse(JsonMatch(content.value).value).None? ==>
      r == Fallback(content.value)
    ensures content.Some? && JsonMatch(content.value).Some? && parse(JsonMatch(content.value).value).Some? ==>
      r == parse(JsonMatch(content.value).value).value
  {
    match content
    case None => Fallback("")
    case Some(text) =>
      match JsonMatch(text)
      case None => Fallback(text)
      case Some(candidate) =>
        match parse(candidate)
        case Some(parsed) => parsed
        case None => Fallback(text)
  }

  // ---------------------------------------------------------------------------
  // Validation of objectName, classification and confidence

  /** `['reusable', 'recyclable', 'non-recyclable'].includes(v)`. */
  predicate IsClassificationValue(v: Option<JsValue>) {
    v.Some? && v.value.JStr? && ParseClassification(v.value.s).Some?
  }

  /** The confidence test passes: `!(!v || v < 0 || v > 100)`. */
  predicate ConfidenceAccepted(v: Option<JsValue>) {
    TruthyProp(v) && !LessThan(ToNumber(v.value), 0.0) && !GreaterThan(ToNumber(v.value), 100.0)
  }

  predicate IsValidated(fields: Fields) {
    TruthyProp(Get(fields, "objectName")) &&
    IsClassificationValue(Get(fields, "classification")) &&
    ConfidenceAccepted(Get(fields, "confidence"))
  }

  function ValidObjectName(v: Option<JsValue>): (r: JsValue)
    ensures Truthy(r)
    ensures TruthyProp(v) ==> r == v.value
    ensures !TruthyProp(v) ==> r == JStr(DetectedItem)
  {
    if TruthyProp(v) then v.value else JStr(DetectedItem)
  }

  function ValidClassification(v: Option<JsValue>): (r: JsValue)
    ensures IsClassificationValue(Some(r))
    ensures IsClassificationValue(v) ==> r == v.value
    ensures !IsClassificationValue(v) ==> r == JStr(ClassificationName(NonRecyclable))
  {
    if IsClassificationValue(v) then v.value else JStr("non-recyclable")
  }

  function ValidConfidence(v: Option<JsValue>): (r: JsValue)
    ensures ConfidenceAccepted(Some(r))
    ensures ConfidenceAccepted(v) ==> r == v.value
    ensures !ConfidenceAccepted(v) ==> r == DefaultConfidence
  {
    if ConfidenceAccepted(v) then v.value else DefaultConfidence
  }

  /**
   * The record after validation: each checked property is kept when it passes
   * its own test and replaced by its default otherwise, whatever happens to the
   * other two; no other property is added, removed or changed, and a record
   * that already passes is left as it is.
   */
  function Validated(fields: Fields): (r: Fields)
    ensures IsValidated(r)
    ensures r["objectName"] == ValidObjectName(Get(fields, "objectName"))
    ensures r["classification"] == ValidClassification(Get(fields, "classification"))
    ensures r["confidence"] == ValidConfidence(Get(fields, "confidence"))
    ensures r.Keys == fields.Keys + ValidatedKeys
    ensures forall k :: k in fields && k !in ValidatedKeys ==> r[k] == fields[k]
    ensures IsValidated(fields) ==> r == fields
  {
    fields["objectName" := ValidObjectName(Get(fields, "objectName"))]
          ["classification" := ValidClassification(Get(fields, "classification"))]
          ["confidence" := ValidConfidence(Get(fields, "confidence"))]
  }

  /** Validating twice is validating once. */
  lemma ValidatedIdempotent(fields: Fields)
    ensures Validated(Validated(fields)) == Validated(fields)
  {
  }

  /**
   * A numeric confidence survives validation exactly when it is a number in
   * (0, 100]: 0, NaN, the infinities, negatives and values above 100 become 75.
   */
  lemma NumericConfidenceKeptIff(n: Number)
    ensures ValidConfidence(Some(JNum(n))) == JNum(n) <==> n.Finite? && 0.0 < n.value <= 100.0
  {
  }

  /** A confidence that is a number after validation lies in (0, 100]. */
  lemma ValidatedNumericConfidenceInRange(fields: Fields)
    ensures Validated(fields)["confidence"].JNum? ==>
      var n := Validated(fields)["confidence"].n; n.Finite? && 0.0 < n.value <= 100.0
  {
    var v := Get(fields, "confidence");
    if ConfidenceAccepted(v) && v.value.JNum? {
      NumericConfidenceKeptIff(v.value.n);
    }
  }

  /**
   * A text confidence survives validation exactly when it is non-empty and reads
   * as NaN or as a number in [0, 100]: the test reads its operand through
   * ToNumber, and NaN fails both comparisons.
   */
  lemma TextConfidenceKeptIff(s: string)
    ensures ValidConfidence(Some(JStr(s))) == JStr(s) <==>
      s != "" && (StringToNumber(s) == NaN ||
                  (StringToNumber(s).Finite? && 0.0 <= StringToNumber(s).value <= 100.0))
  {
  }

  /**
   * So a confidence that is not a number can survive: the text "high" and the
   * text "0" are kept, while the number 0 is replaced by 75.
   */
  lemma NonNumericConfidenceSurvives()
    ensures ValidConfidence(Some(JStr("high"))) == JStr("high")
    ensures ValidConfidence(Some(JStr("0"))) == JStr("0")
    ensures ValidConfidence(Some(JNum(Finite(0.0)))) == DefaultConfidence
  {
    WordReadsAsNaN();
    TextConfidenceKeptIff("high");
    ZeroTextReadsAsZero();
    TextConfidenceKeptIff("0");
  }

  /** The object the service works on: `analysisResult`, updated in place. */
  class AnalysisResult {
    var fields: Fields

    constructor (initial: Fields)
      ensures fields == initial
    {
      fields := initial;
    }

    /** The three `if` statements that fill in or replace the checked properties. */
    method Validate()
      modifies this
      ensures fields == Validated(old(fields))
    {
      if !TruthyProp(Get(fields, "objectName")) {
        fields := fields["objectName" := JStr(DetectedItem)];
      }
      if !IsClassificationValue(Get(fields, "classification")) {
        fields := fields["classification" := JStr("non-recyclable")];
      }
      if !ConfidenceAccepted(Get(fields, "confidence")) {
        fields := fields["confidence" := DefaultConfidence];
      }
    }
  }

  /** The body of a successful response for reply text `content`. */
  function AnalysisBody(content: Option<string>, parse: JsonParser): (r: Fields)
    ensures IsValidated(r)
    ensures r.Keys == Extracted(content, parse).Keys + ValidatedKeys
    ensures forall k :: k in Extracted(content, parse) && k !in ValidatedKeys ==> r[k] == Extracted(content, parse)[k]
    ensures r == Validated(Extracted(content, parse))
  {
    Validated(Extracted(content, parse))
  }

  /** The fallback record already passes validation, so it is returned as built. */
  lemma FallbackIsValidated(content: string)
    ensures Validated(Fallback(content)) == Fallback(content)
  {
    var r := Fallback(content);
    assert ParseClassification("non-recyclable").Some?;
    assert IsValidated(r);
  }

  /**
   * Plain prose with no `{`…`}` pair yields the fallback record, which names a
   * "Detected Item" with confidence 75 and quotes the first 150 characters of
   * the prose in its last educational fact.
   */
  lemma ProseReplyFallsBack(text: string, parse: JsonParser)
    requires forall a, b :: 0 <= a < b < |text| && text[a] == '{' ==> text[b] != '}'
    ensures AnalysisBody(Some(text), parse) == Fallback(text)
    ensures AnalysisBody(Some(text), parse)["objectName"] == JStr(DetectedItem)
    ensures AnalysisBody(Some(text), parse)["confidence"] == JNum(Finite(75.0))
    ensures AnalysisBody(Some(text), parse)["educationalFacts"].items[3] == JStr(Excerpt(text))
  {
    FallbackIsValidated(text);
  }

  /**
   * A parsed reply keeps everything but the three checked properties; a
   * classification outside the three values becomes "non-recyclable" and a
   * confidence of 120 becomes 75.
   */
  lemma ParsedReplyValidated(text: string, parse: JsonParser, parsed: Fields)
    requires JsonMatch(text).Some? && parse(JsonMatch(text).value) == Some(parsed)
    ensures forall k :: k in parsed && k !in ValidatedKeys ==> AnalysisBody(Some(text), parse)[k] == parsed[k]
    ensures Get(parsed, "classification") == Some(JStr("compostable")) ==>
      AnalysisBody(Some(text), parse)["classification"] == JStr("non-recyclable")
    ensures Get(parsed, "confidence") == Some(JNum(Finite(120.0))) ==>
      AnalysisBody(Some(text), parse)["confidence"] == DefaultConfidence
  {
    assert ParseClassification("compostable").None?;
  }

  // ---------------------------------------------------------------------------
  // Requests and responses

  /**
   * What `await req.json()` and the destructuring `const { image } = ...` give:
   * either they throw (a body that is not JSON, or JSON null) with a message,
   * or they yield the `image` property, possibly undefined.
   */
  datatype RequestBody = BodyUnreadable(message: string) | Destructured(image: Option<JsValue>)

  datatype Request = Request(httpMethod: string, body: RequestBody)

  /** Every response carries the CORS headers; a preflight answer has an empty body. */
  datatype Response = Preflight | Json(status: nat, body: Fields)

  const NoImageProvided: Response := Json(400, map["error" := JStr("No image provided")])

  function ServerError(details: string): Response {
    Json(500, map["error" := JStr("Failed to analyze image"), "details" := JStr(details)])
  }

  /** Either the handler has already answered, or it calls the model provider with `image`. */
  datatype Gate = Answer(response: Response) | Dispatch(image: JsValue)

  function GateRequest(req: Request): (g: Gate)
    ensures g == Answer(Preflight) <==> req.httpMethod == "OPTIONS"
    ensures g.Dispatch? <==> req.httpMethod != "OPTIONS" && req.body.Destructured? && TruthyProp(req.body.image)
    ensures g.Dispatch? ==> g.image == req.body.image.value
    ensures req.httpMethod != "OPTIONS" && req.body.Destructured? && !TruthyProp(req.body.image) ==>
      g == Answer(NoImageProvided)
    ensures req.httpMethod != "OPTIONS" && req.body.BodyUnreadable? ==> g == Answer(ServerError(req.body.message))
  {
    if req.httpMethod == "OPTIONS" then Answer(Preflight)
    else match req.body
      case BodyUnreadable(message) => Answer(ServerError(message))
      case Destructured(image) =>
        if !TruthyProp(image) then Answer(NoImageProvided) else Dispatch(image.value)
  }

  /**
   * Where `data.choices[0].message.content` leads: the path is broken (a
   * TypeError with its message, thrown again by the fallback's own read of the
   * same path), or it ends in text or in null/undefined.
   */
  datatype ContentPath = PathMissing(message: string) | Content(text: Option<string>)

  /**
   * The provider's answer: the call fails with a message (`fetch` rejects, or
   * `response.json()` throws on a body that is not JSON), or it has an ok flag, the optional `data.error?.message`, and the
   * content path.
   */
  datatype ProviderReply =
    | ReplyUnreadable(message: string)
    | Reply(ok: bool, errorMessage: Option<string>, content: ContentPath)

  /** `data.error?.message || 'OpenAI API error'`. */
  function ProviderErrorMessage(m: Option<string>): (r: string)
    ensures r != ""
    ensures m.Some? && m.value != "" ==> r == m.value
    ensures m.None? || m.value == "" ==> r == ProviderErrorDefault
  {
    if m.Some? && m.value != "" then m.value else ProviderErrorDefault
  }

  /** The response for a provider reply (the part of the handler after the call). */
  function ReplyResponse(reply: ProviderReply, parse: JsonParser): (r: Response)
    ensures r.Json? && (r.status == 200 || r.status == 500)
    ensures r.status == 200 <==> reply.Reply? && reply.ok && reply.content.Content?
    ensures r.status == 200 ==> IsValidated(r.body)
    ensures r.status == 500 ==> Get(r.body, "error") == Some(JStr("Failed to analyze image"))
    ensures reply.Reply? && !reply.ok ==> r == ServerError(ProviderErrorMessage(reply.errorMessage))
    ensures reply.ReplyUnreadable? ==> r == ServerError(reply.message)
    ensures reply.Reply? && reply.ok && reply.content.PathMissing? ==> r == ServerError(reply.content.message)
    ensures reply.Reply? && reply.ok && reply.content.Content? ==> r == Json(200, AnalysisBody(reply.content.text, parse))
  {
    match reply
    case ReplyUnreadable(message) => ServerError(message)
    case Reply(ok, errorMessage, content) =>
      if !ok then ServerError(ProviderErrorMessage(errorMessage))
      else match content
        case PathMissing(message) => ServerError(message)
        case Content(text) => Json(200, AnalysisBody(text, parse))
  }

  /** The whole handler for one request, given what the provider would answer. */
  function Respond(req: Request, provider: JsValue -> ProviderReply, parse: JsonParser): (r: Response)
    ensures req.httpMethod == "OPTIONS" ==> r == Preflight
    ensures r.Json? && r.status == 200 ==> IsValidated(r.body)
    ensures r.Preflight? || r.status in {200, 400, 500}
    ensures GateRequest(req).Answer? ==> r == GateRequest(req).response
    ensures GateRequest(req).Dispatch? ==> r == ReplyResponse(provider(GateRequest(req).image), parse)
  {
    match GateRequest(req)
    case Answer(response) => response
    case Dispatch(image) => ReplyResponse(provider(image), parse)
  }

  /** Builds the response after the provider call, validating the record in place. */
  method Complete(reply: ProviderReply, parse: JsonParser) returns (resp: Response)
    ensures resp == ReplyResponse(reply, parse)
  {
    match reply
    case ReplyUnreadable(message) =>
      resp := ServerError(message);
    case Reply(ok, errorMessage, content) =>
      if !ok {
        resp := ServerError(ProviderErrorMessage(errorMessage));
      } else {
        match content
        case PathMissing(message) =>
          resp := ServerError(message);
        case Content(text) =>
          var analysisResult := new AnalysisResult(Extracted(text, parse));
          analysisResult.Validate();
          assert analysisResult.fields == AnalysisBody(text, parse);
          resp := Json(200, analysisResult.fields);
      }
  }

  /**
   * The request handler. `dispatched` is the image sent to the provider, if the
   * provider was called at all.
   */
  method Serve(req: Request, provider: JsValue -> ProviderReply, parse: JsonParser)
    returns (resp: Response, dispatched: Option<JsValue>)
    ensures resp == Respond(req, provider, parse)
    ensures dispatched.None? <==> GateRequest(req).Answer?
    ensures req.httpMethod == "OPTIONS" ==> dispatched.None?
    ensures req.httpMethod != "OPTIONS" && req.body.Destructured? && !TruthyProp(req.body.image) ==>
      resp == NoImageProvided && dispatched.None?
    ensures dispatched.Some? ==> req.body.Destructured? && req.body.image == dispatched
  {
    match GateRequest(req)
    case Answer(response) =>
      resp, dispatched := response, None;
    case Dispatch(image) =>
      dispatched := Some(image);
      resp := Complete(provider(image), parse);
  }
}
