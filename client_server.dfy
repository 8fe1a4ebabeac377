/** The form and the route together: how a reply of the handler reaches the
    form's state (seo-analyzer/src/SeoForm.js, lines 24-32, reading the bodies
    that backend/server.js sends on lines 102, 109 and 112). */
module ClientServer {
  import opened Runtime
  import opened ContentExtractor
  import opened ReportGenerator
  import opened RequestHandler
  import opened SeoFormComponent

  /** What `fetch` and `response.json()` give the form for a reply: `ok` is a
      2xx status, and the body has exactly the property the handler set. */
  function Delivered(res: HttpResponse): (outcome: FetchOutcome)
    ensures outcome.Responded?
    ensures outcome.ok <==> 200 <= res.status < 300
    ensures outcome.data.suggestions.Value? <==> res.body.SuggestionsReply?
    ensures outcome.data.error.Value? <==> res.body.ErrorReply?
    ensures res.body.SuggestionsReply? ==> outcome.data.suggestions.s == res.body.suggestions
    ensures res.body.ErrorReply? ==> outcome.data.error.s == res.body.error
  {
    Responded(200 <= res.status < 300,
      match res.body
      case SuggestionsReply(s) => ReplyData(Value(s), Missing)
      case ErrorReply(e) => ReplyData(Missing, Value(e)))
  }

  /** A 200 reply's suggestions become the form's suggestions, and the error
      text of a 400 or 500 reply is shown as it is, never the generic
      message. */
  lemma ReplyReachesForm(res: HttpResponse)
    requires res.status in {Ok, BadRequest, InternalServerError}
    requires res.status == Ok <==> res.body.SuggestionsReply?
    requires res.body.ErrorReply? ==> res.body.error in {FieldsRequired, AnalysisFailed}
    ensures res.status == Ok ==> Settle(Delivered(res)) == Settled(Value(res.body.suggestions), "")
    ensures res.status != Ok ==> Settle(Delivered(res)) == Settled(Value(""), res.body.error)
  {
  }

  /** One submission end to end: the form posts its inputs, the handler
      answers, and the form settles on the reply. An empty input is refused
      by the server with its own sentence; otherwise the form shows the
      generated suggestions, unless closing the browser threw. */
  method SubmitToServer(form: SeoForm, browser: BrowserEnv, api: string -> Completion<ApiResponse>)
    returns (sent: RequestBody, res: HttpResponse, calls: seq<Effect>)
    modifies form
    ensures sent == RequestBody(Value(old(form.url)), Value(old(form.keyword)))
    ensures form.url == old(form.url) && form.keyword == old(form.keyword) && !form.isLoading
    ensures !Complete(sent) ==> form.error == FieldsRequired && form.seoSuggestions == Value("") && calls == []
    ensures Complete(sent) && browser.launchOk && !browser.closeOk ==>
              form.error == AnalysisFailed && form.seoSuggestions == Value("")
    ensures Complete(sent) && !(browser.launchOk && !browser.closeOk) ==>
              form.error == "" && form.seoSuggestions == Value(Suggestion(api(PostedPrompt(sent, browser))))
  {
    var body := RequestBody(Value(form.url), Value(form.keyword));
    res, calls := AnalyzeSeo(body, browser, api);
    ReplyReachesForm(res);
    sent := form.HandleSubmit(Delivered(res));
  }
}
