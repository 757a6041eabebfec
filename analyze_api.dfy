/**
 * The server-side handler (api/analyze.ts): three early-return guards, one model call,
 * and the greedy extraction of a `{...}` block from the model's text.
 */
module AnalyzeApi {

  import opened Wrappers
  import opened Text

  /** `req.body`, of which the handler reads only `websiteUrl`. */
  datatype RequestBody = RequestBody(websiteUrl: Option<string>)

  /** The parts of the request the handler reads: its `method` and its body, which may be missing. */
  datatype Request = Request(httpMethod: string, body: Option<RequestBody>)

  /** How the awaited `generateContent` call ended: with a response text, or rejected. */
  datatype ModelCall = Answered(text: Option<string>) | Failed(message: string)

  /** `ParsedJson(t)` stands for the value `JSON.parse(t)`, which is not modelled. */
  datatype Body = ErrorBody(error: string) | ParsedJson(text: string)

  datatype Response = Response(status: int, body: Body)

  /**
   * How the handler's promise settles: it sent a response, or it threw before sending
   * one (no `try` surrounds its body), which leaves the reply to the hosting runtime.
   */
  datatype Outcome = Sent(response: Response) | Unhandled

  /** The pattern `/\{[\s\S]*\}/` matches `s[p..e]`: a `{`, anything, then a `}`. */
  predicate Matches(s: string, p: int, e: int) {
    0 <= p && p + 2 <= e <= |s| && s[p] == '{' && s[e - 1] == '}'
  }

  /**
   * The span `String.prototype.match` reports for the pattern: the leftmost start at
   * which the pattern matches, and there the longest match, since `[\s\S]*` is greedy.
   */
  function MatchSpan(s: string): (r: Option<(nat, nat)>)
    ensures r.None? <==> forall p, e :: !Matches(s, p, e)
    ensures r.Some? ==> Matches(s, r.value.0, r.value.1)
    ensures r.Some? ==> forall p, e :: p < r.value.0 ==> !Matches(s, p, e)
    ensures r.Some? ==> forall e :: e > r.value.1 ==> !Matches(s, r.value.0, e)
  {
    match (FirstIndexOf(s, '{'), LastIndexOf(s, '}'))
    case (Some(i), Some(j)) =>
      assert forall p :: 0 <= p < i ==> s[..i][p] == s[p];
      assert forall q :: j < q < |s| ==> s[j + 1..][q - j - 1] == s[q];
      if i < j then
        assert Matches(s, i, j + 1);
        Some((i, j + 1))
      else
        None
    case (None, _) =>
      assert forall p :: 0 <= p < |s| ==> s[p] != '{';
      None
    case (_, None) =>
      assert forall p :: 0 <= p < |s| ==> s[p] != '}';
      None
  }

  /**
   * `text.match(/\{[\s\S]*\}/)`, with the matched text for `json[0]`: it runs from the
   * first `{` to the last `}`, and exists exactly when some `}` follows some `{`.
   */
  function ExtractJson(text: string): (r: Option<string>)
    ensures r.Some? <==> exists i, j :: 0 <= i < j < |text| && text[i] == '{' && text[j] == '}'
    ensures r.Some? ==> |r.value| >= 2 && r.value[0] == '{' && r.value[|r.value| - 1] == '}'
    ensures r.Some? ==> FirstIndexOf(text, '{').Some? && LastIndexOf(text, '}').Some? &&
                        r.value == text[FirstIndexOf(text, '{').value..LastIndexOf(text, '}').value + 1]
    ensures r.Some? <==> MatchSpan(text).Some?
    ensures r.Some? ==> r.value == text[MatchSpan(text).value.0..MatchSpan(text).value.1]
  {
    match MatchSpan(text)
    case None =>
      assert forall i, j :: 0 <= i < j < |text| && text[i] == '{' && text[j] == '}' ==> Matches(text, i, j + 1);
      None
    case Some((p, e)) =>
      assert Matches(text, p, e);
      Some(text[p..e])
  }

  /**
   * An object surrounded by prose that holds no braces of the wrong kind is extracted
   * exactly; prose with a `{` before it or a `}` after it would be swallowed too.
   */
  lemma ExtractsEmbeddedObject(before: string, obj: string, after: string)
    requires |obj| >= 2 && obj[0] == '{' && obj[|obj| - 1] == '}'
    requires '{' !in before && '}' !in after
    ensures ExtractJson(before + obj + after) == Some(obj)
  {
    var text := before + obj + after;
    var i, j := |before|, |before| + |obj| - 1;
    assert text[i] == '{' && text[j] == '}';
    assert text[..i] == before;
    assert text[j + 1..] == after;
    assert text[i..j + 1] == obj;
  }

  /**
   * `handler(req, res)`, with `process.env.GEMINI_API_KEY` and the model call's outcome
   * as inputs. Destructuring a missing `req.body` throws a TypeError, and a rejected call
   * propagates; both leave the handler without a response of its own.
   */
  function Handler(req: Request, geminiApiKey: Option<string>, call: ModelCall): (r: Outcome)
    ensures req.httpMethod != "POST" ==> r == Sent(Response(405, ErrorBody("Method not allowed")))
    ensures req.httpMethod == "POST" && req.body.None? ==> r == Unhandled
    ensures req.httpMethod == "POST" && req.body.Some? && !Truthy(req.body.value.websiteUrl) ==>
              r == Sent(Response(400, ErrorBody("Website URL required")))
    ensures req.httpMethod == "POST" && req.body.Some? && Truthy(req.body.value.websiteUrl) && !Truthy(geminiApiKey) ==>
              r == Sent(Response(500, ErrorBody("Gemini API key missing")))
    ensures GuardsPass(req, geminiApiKey) && call.Failed? ==> r == Unhandled
    ensures GuardsPass(req, geminiApiKey) && call.Answered? ==>
              r == match ExtractJson(OrEmpty(call.text))
                   case None => Sent(Response(500, ErrorBody("Invalid AI response")))
                   case Some(json) => Sent(Response(200, ParsedJson(json)))
    ensures r.Unhandled? <==> req.httpMethod == "POST" && (req.body.None? || (GuardsPass(req, geminiApiKey) && call.Failed?))
    ensures r.Sent? && r.response.status == 200 <==>
              GuardsPass(req, geminiApiKey) && call.Answered? && ExtractJson(OrEmpty(call.text)).Some?
  {
    if req.httpMethod != "POST" then Sent(Response(405, ErrorBody("Method not allowed")))
    else if req.body.None? then Unhandled
    else if !Truthy(req.body.value.websiteUrl) then Sent(Response(400, ErrorBody("Website URL required")))
    else if !Truthy(geminiApiKey) then Sent(Response(500, ErrorBody("Gemini API key missing")))
    else
      match call
      case Failed(_) => Unhandled
      case Answered(text) =>
        match ExtractJson(OrEmpty(text))
        case None => Sent(Response(500, ErrorBody("Invalid AI response")))
        case Some(json) => Sent(Response(200, ParsedJson(json)))
  }

  /** The three guards let the request through to the model call. */
  predicate GuardsPass(req: Request, geminiApiKey: Option<string>) {
    req.httpMethod == "POST" && req.body.Some? && Truthy(req.body.value.websiteUrl) && Truthy(geminiApiKey)
  }

  /** An absent or empty model text has no match and yields the invalid-response error. */
  lemma EmptyTextIsInvalid(req: Request, geminiApiKey: Option<string>)
    requires GuardsPass(req, geminiApiKey)
    ensures Handler(req, geminiApiKey, Answered(None)) == Sent(Response(500, ErrorBody("Invalid AI response")))
    ensures Handler(req, geminiApiKey, Answered(Some(""))) == Sent(Response(500, ErrorBody("Invalid AI response")))
  {
  }
}
