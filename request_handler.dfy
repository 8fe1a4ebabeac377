/** The `/analyze_seo` route of backend/server.js (lines 98-114): check that
    both fields are present, extract the page, generate the suggestions and
    answer 200, or answer 400 when a field is missing, or 500 when an exception
    escapes the two steps. The status codes are those of RFC 9110: 200 OK
    (section 15.3.1), 400 Bad Request (section 15.5.1) and 500 Internal Server
    Error (section 15.6.1). */
module RequestHandler {
  import opened Runtime
  import opened JsStrings
  import opened ContentExtractor
  import opened ReportGenerator

  const Ok := 200
  const BadRequest := 400
  const InternalServerError := 500

  const FieldsRequired := "URL and target keyword are required."
  const AnalysisFailed := "Error analyzing the URL."

  /** The JSON body of the reply: `{ suggestions }` or `{ error }`. */
  datatype ReplyBody = SuggestionsReply(suggestions: string) | ErrorReply(error: string)

  datatype HttpResponse = HttpResponse(status: nat, body: ReplyBody)

  /** Both fields are present and truthy (line 101): neither is absent and
      neither is the empty string. */
  predicate Complete(body: RequestBody): (b: bool)
    ensures b <==> body.url !in {Missing, Value("")} && body.targetKeyword !in {Missing, Value("")}
  {
    body.url.Truthy() && body.targetKeyword.Truthy()
  }

  /** The prompt the handler posts for a complete request. */
  function PostedPrompt(body: RequestBody, browser: BrowserEnv): string
    requires Complete(body)
  {
    BuildPrompt(EffectiveContent(PageText(browser)), body.targetKeyword.s)
  }

  /** The handler. A request missing a field gets 400 and touches neither the
      browser nor the API. A complete request gets 500 exactly when closing the
      launched browser throws, which is the only exception that escapes the
      two steps; otherwise it gets 200 with the generated suggestions, whatever
      happened inside extraction and generation. */
  method AnalyzeSeo(body: RequestBody, browser: BrowserEnv, api: string -> Completion<ApiResponse>)
    returns (res: HttpResponse, calls: seq<Effect>)
    ensures !Complete(body) ==> res == HttpResponse(BadRequest, ErrorReply(FieldsRequired)) && calls == []
    ensures res.status == BadRequest <==> !Complete(body)
    ensures Complete(body) ==> (res.status == InternalServerError <==> browser.launchOk && !browser.closeOk)
    ensures Complete(body) && !(browser.launchOk && !browser.closeOk) ==> res.status == Ok
    ensures res.status in {Ok, BadRequest, InternalServerError}
    ensures res.status == Ok <==> res.body.SuggestionsReply?
    ensures res.body.ErrorReply? ==> res.body.error in {FieldsRequired, AnalysisFailed}
    ensures res.status == InternalServerError ==>
              res.body == ErrorReply(AnalysisFailed) && calls == ExtractionCalls(body.url.s, browser)
    ensures res.status == Ok ==>
              Complete(body)
              && res.body == SuggestionsReply(Suggestion(api(PostedPrompt(body, browser))))
              && calls == ExtractionCalls(body.url.s, browser) + [Post(PostedPrompt(body, browser))]
  {
    if !body.url.Truthy() || !body.targetKeyword.Truthy() {
      res := HttpResponse(BadRequest, ErrorReply(FieldsRequired));
      calls := [];
      return;
    }
    var extracted, browserCalls := ExtractPageContent(body.url.s, browser);
    calls := browserCalls;
    match extracted {
      case Throw =>
        res := HttpResponse(InternalServerError, ErrorReply(AnalysisFailed));
      case Return(pageContent) =>
        var suggestions, prompt := SeoAnalysis(pageContent, body.targetKeyword.s, api);
        calls := calls + [Post(prompt)];
        res := HttpResponse(Ok, SuggestionsReply(suggestions));
    }
  }

  /** When a browser call fails the prompt is built on the extraction's
      fallback sentence itself: it is not blank, so the placeholder does not
      replace it. */
  lemma FallbackReachesPrompt(body: RequestBody, browser: BrowserEnv)
    requires Complete(body) && !PageRead(browser)
    ensures PostedPrompt(body, browser) == BuildPrompt(ExtractionFallback, body.targetKeyword.s)
  {
    assert !IsWhiteSpace(ExtractionFallback[|ExtractionFallback| - 1]);
  }
}
