/** The form component of seo-analyzer/src/SeoForm.js: its state fields, the
    submit handler that drives them (lines 11-36) and what the render shows for
    a given state (lines 49-70). The HTTP round trip is an outcome given to the
    handler. */
module SeoFormComponent {
  import opened Runtime
  import opened JsStrings
  import opened SuggestionFormatter

  const SomethingWentWrong := "Something went wrong."
  const FailedToConnect := "Failed to connect to the server."

  /** The parsed JSON body of a response; either property may be absent. */
  datatype ReplyData = ReplyData(suggestions: Field, error: Field)

  /** How `fetch` and `response.json()` ended: a parsed body with the
      response's `ok` flag, or an exception from either call. A `null` body
      throws when its property is read and so ends as `Failed` too. */
  datatype FetchOutcome = Responded(ok: bool, data: ReplyData) | Failed

  /** What the two state fields become once the request has settled. */
  datatype Settled = Settled(suggestions: Field, error: string)

  /** The outcome of the request sorted into suggestions or an error message
      (lines 24-32), starting from the cleared state. At most one of the two is
      non-empty, and the error is non-empty exactly when the request failed. */
  function Settle(outcome: FetchOutcome): (s: Settled)
    ensures !(s.suggestions.Truthy() && s.error != "")
    ensures s.error != "" <==> !(outcome.Responded? && outcome.ok)
    ensures outcome.Failed? ==> s.error == FailedToConnect
    ensures outcome.Responded? && outcome.ok ==> s.suggestions == outcome.data.suggestions
    ensures outcome.Responded? && !outcome.ok ==>
              s.error == (if outcome.data.error.Truthy() then outcome.data.error.s else SomethingWentWrong)
    ensures !(outcome.Responded? && outcome.ok) ==> s.suggestions == Value("")
  {
    match outcome
    case Failed => Settled(Value(""), FailedToConnect)
    case Responded(ok, data) =>
      if ok then Settled(data.suggestions, "")
      else Settled(Value(""), if data.error.Truthy() then data.error.s else SomethingWentWrong)
  }

  /** What the component renders: the button label, the error paragraph if
      any, and the formatted suggestions if shown. */
  datatype View = View(buttonLabel: string, errorMessage: Option<string>, results: Option<seq<Block>>)

  class SeoForm {
    var url: string
    var keyword: string
    var seoSuggestions: Field
    var isLoading: bool
    var error: string

    /** The initial state (lines 5-9). */
    constructor ()
      ensures url == "" && keyword == "" && seoSuggestions == Value("")
      ensures !isLoading && error == ""
    {
      url, keyword, seoSuggestions := "", "", Value("");
      isLoading, error := false, "";
    }

    /** The URL input's change handler (line 43). */
    method SetUrl(value: string)
      modifies this
      ensures url == value
      ensures keyword == old(keyword) && seoSuggestions == old(seoSuggestions)
      ensures isLoading == old(isLoading) && error == old(error)
    {
      url := value;
    }

    /** The keyword input's change handler (line 46). */
    method SetKeyword(value: string)
      modifies this
      ensures keyword == value
      ensures url == old(url) && seoSuggestions == old(seoSuggestions)
      ensures isLoading == old(isLoading) && error == old(error)
    {
      keyword := value;
    }

    /** Lines 13-15: loading starts and both messages are cleared before the
        request is sent. */
    method BeginSubmit()
      modifies this
      ensures isLoading && seoSuggestions == Value("") && error == ""
      ensures url == old(url) && keyword == old(keyword)
    {
      isLoading := true;
      seoSuggestions := Value("");
      error := "";
    }

    /** Lines 24-32: the settled request sets one of the two messages. */
    method ApplyOutcome(outcome: FetchOutcome)
      requires seoSuggestions == Value("") && error == ""
      modifies this
      ensures seoSuggestions == Settle(outcome).suggestions && error == Settle(outcome).error
      ensures url == old(url) && keyword == old(keyword) && isLoading == old(isLoading)
    {
      match outcome {
        case Failed =>
          error := FailedToConnect;
        case Responded(ok, data) =>
          if ok {
            seoSuggestions := data.suggestions;
          } else {
            error := if data.error.Truthy() then data.error.s else SomethingWentWrong;
          }
      }
    }

    /** `handleSubmit` (lines 11-36): posts the current inputs, records the
        outcome and stops loading on every path, so that afterwards at most one
        of the suggestions and the error is shown. */
    method HandleSubmit(outcome: FetchOutcome) returns (sent: RequestBody)
      modifies this
      ensures sent == RequestBody(Value(url), Value(keyword))
      ensures url == old(url) && keyword == old(keyword)
      ensures !isLoading
      ensures seoSuggestions == Settle(outcome).suggestions && error == Settle(outcome).error
      ensures !(Render().errorMessage.Some? && Render().results.Some?)
    {
      BeginSubmit();
      sent := RequestBody(Value(url), Value(keyword));
      ApplyOutcome(outcome);
      isLoading := false;
    }

    /** The render (lines 48-70): the button reads "Analyzing..." while
        loading, the error paragraph appears exactly when the error is
        non-empty, and the suggestions appear, one block per line, exactly when
        they are non-empty and nothing is loading. */
    function Render(): (v: View)
      reads this
      ensures v.buttonLabel == (if isLoading then "Analyzing..." else "Analyze")
      ensures v.errorMessage.Some? <==> error != ""
      ensures v.errorMessage.Some? ==> v.errorMessage.value == error
      ensures v.results.Some? <==> seoSuggestions.Truthy() && !isLoading
      ensures v.results.Some? ==> |v.results.value| == Count(seoSuggestions.s, '\n') + 1
      ensures v.results.Some? ==> v.results.value == Format(seoSuggestions.s)
    {
      View(
        if isLoading then "Analyzing..." else "Analyze",
        if error != "" then Some(error) else None,
        if seoSuggestions.Truthy() && !isLoading then Some(Format(seoSuggestions.s)) else None)
    }
  }
}
