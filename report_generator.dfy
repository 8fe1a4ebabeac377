/** `seoAnalysis` of backend/server.js (lines 46-95): substitute a placeholder
    for blank page text, build the prompt around the text and the keyword, post
    it to the generation API and pick the result string out of the response's
    shape. The API is a function from the prompt to the completion of the POST. */
module ReportGenerator {
  import opened Runtime
  import opened JsStrings

  const BlankPlaceholder := "This is a sample webpage discussing various topics."
  const InvalidResponse := "Invalid response from Gemini API."
  const NoResponse := "No response from AI."
  const GenerationError := "There was an error generating SEO suggestions."

  // ---------------------------------------------------------------------------
  // Blank content (lines 47-49)

  /** The page text the prompt is built on: whitespace-only text (as `trim`
      sees it) is replaced by the placeholder, any other text is kept as it
      is, untrimmed. */
  function EffectiveContent(content: string): (c: string)
    ensures AllWhiteSpace(content) ==> c == BlankPlaceholder
    ensures !AllWhiteSpace(content) ==> c == content
    ensures !AllWhiteSpace(c)
  {
    TrimEmpty(content);
    if Trim(content) == [] then
      PlaceholderNotBlank();
      BlankPlaceholder
    else content
  }

  lemma PlaceholderNotBlank()
    ensures !AllWhiteSpace(BlankPlaceholder)
  {
    assert !IsWhiteSpace(BlankPlaceholder[|BlankPlaceholder| - 1]);
  }

  // ---------------------------------------------------------------------------
  // The prompt (lines 51-76): fixed text around four copies of the keyword and
  // one copy of the content.

  const Head := "\n  You are an SEO expert. Analyze the webpage content below and provide a structured SEO analysis for the keyword '"
  const BeforeContent := "'.\n\n  ### Page Content:\n  "
  const AfterContent := "\n\n  ### Instructions:\n  - The analysis should be **structured** with **clear bullet points** for each key area.\n  - Cover the following aspects:\n    - **Title Optimization**\n    - **Keyword Placement**\n    - **Meta Description**\n    - **Header Structure (H1, H2, etc.)**\n    - **Readability & Content Quality**\n    - **Technical SEO (Page Speed, Mobile Optimization)**\n  - Provide **actionable suggestions** for each point.\n  - Write it in a **clear and professional SEO report style**.\n\n  ### Example Output:\n  - **Title Optimization**: The title does not effectively use the keyword '"
  const InTitleExample := "'. A more engaging title would be: \"Discover the Best Strategies for '"
  const AfterTitleExample := "' in 2024.\"\n  - **Keyword Placement**: The keyword appears only twice in the content. Ideally, it should be used in the first 100 words, H1 tags, and throughout the content naturally.\n  - **Meta Description**: The meta description should include '"
  const Tail := "' in a natural and compelling way to improve click-through rates.\n  - **Header Structure**: H1 and H2 tags should include the keyword to enhance on-page SEO.\n  - **Readability**: Sentences are too complex. Simplify them for better user experience.\n  - **Technical SEO**: Improve page speed by optimizing images and minifying CSS/JS.\n  "

  /** A template literal with the keyword interpolated at four places and the
      content at one, between the six fixed segments `t` (grouped from the
      right, which is the same string). */
  function Fill(t: seq<string>, content: string, keyword: string): (r: string)
    requires |t| == 6
    ensures |r| == FixedText(t) + |content| + 4 * |keyword|
    ensures StartsWith(r, t[0])
    ensures r[|r| - |t[5]|..] == t[5]
  {
    t[0] + (keyword + (t[1] + (content + (t[2] + (keyword + (t[3] + (keyword + (t[4] + (keyword + t[5])))))))))
  }

  /** The length of the fixed text of a template. */
  function FixedText(t: seq<string>): nat
    requires |t| == 6
  {
    |t[0]| + |t[1]| + |t[2]| + |t[3]| + |t[4]| + |t[5]|
  }

  function Segments(): (t: seq<string>)
    ensures |t| == 6
  {
    [Head, BeforeContent, AfterContent, InTitleExample, AfterTitleExample, Tail]
  }

  /** The length of the prompt's fixed text. */
  const FixedLength := FixedText(Segments())

  /** The template literal of lines 51-76: it adds to its fixed text one copy
      of the content and four of the keyword. */
  function BuildPrompt(content: string, keyword: string): (p: string)
    ensures |p| == FixedLength + |content| + 4 * |keyword|
  {
    Fill(Segments(), content, keyword)
  }

  /** The prompt opens with the expert instruction and closes with the last
      example line. */
  lemma PromptFrame(content: string, keyword: string)
    ensures StartsWith(BuildPrompt(content, keyword), Head)
    ensures BuildPrompt(content, keyword)[|BuildPrompt(content, keyword)| - |Tail|..] == Tail
  {
    var t := Segments();
    assert t[0] == Head && t[5] == Tail;
  }

  /** Where the content sits in a filled template. */
  function ContentAt(t: seq<string>, keyword: string): nat
    requires |t| == 6
  {
    |t[0]| + |keyword| + |t[1]|
  }

  /** Where the four copies of the keyword sit in a filled template. */
  function KeywordsAt(t: seq<string>, content: string, keyword: string): seq<nat>
    requires |t| == 6
  {
    var k1 := |t[0]|;
    var k2 := ContentAt(t, keyword) + |content| + |t[2]|;
    var k3 := k2 + |keyword| + |t[3]|;
    var k4 := k3 + |keyword| + |t[4]|;
    [k1, k2, k3, k4]
  }

  lemma FillHoldsKeyword(t: seq<string>, content: string, keyword: string)
    requires |t| == 6
    ensures |KeywordsAt(t, content, keyword)| == 4
    ensures forall j :: 0 <= j < 4 ==> OccursAt(Fill(t, content, keyword), keyword, KeywordsAt(t, content, keyword)[j])
    ensures forall j :: 0 <= j < 3 ==> KeywordsAt(t, content, keyword)[j] + |keyword| <= KeywordsAt(t, content, keyword)[j + 1]
  {
    var r := Fill(t, content, keyword);
    var ks := KeywordsAt(t, content, keyword);
    assert OccursAt(r, keyword, ks[0]);
    assert OccursAt(r, keyword, ks[1]);
    assert OccursAt(r, keyword, ks[2]);
    assert OccursAt(r, keyword, ks[3]);
  }

  lemma FillHoldsContent(t: seq<string>, content: string, keyword: string)
    requires |t| == 6
    ensures OccursAt(Fill(t, content, keyword), content, ContentAt(t, keyword))
    ensures ContentAt(t, keyword) + |content| <= KeywordsAt(t, content, keyword)[1]
  {
  }

  /** Where the content sits in the prompt. */
  function ContentOffset(keyword: string): nat {
    ContentAt(Segments(), keyword)
  }

  /** Where the four copies of the keyword sit in the prompt. */
  function KeywordOffsets(content: string, keyword: string): seq<nat> {
    KeywordsAt(Segments(), content, keyword)
  }

  /** The prompt holds the content verbatim, between the keyword of the first
      sentence and the instructions. */
  lemma PromptHoldsContent(content: string, keyword: string)
    ensures OccursAt(BuildPrompt(content, keyword), content, ContentOffset(keyword))
    ensures ContentOffset(keyword) + |content| <= KeywordOffsets(content, keyword)[1]
  {
    FillHoldsContent(Segments(), content, keyword);
  }

  /** The prompt holds the keyword verbatim four times, at increasing and
      non-overlapping places: in the first sentence, in the example title
      remark, in the example title and in the example meta description. */
  lemma PromptHoldsKeyword(content: string, keyword: string)
    ensures |KeywordOffsets(content, keyword)| == 4
    ensures forall j :: 0 <= j < 4 ==> OccursAt(BuildPrompt(content, keyword), keyword, KeywordOffsets(content, keyword)[j])
    ensures forall j :: 0 <= j < 3 ==> KeywordOffsets(content, keyword)[j] + |keyword| <= KeywordOffsets(content, keyword)[j + 1]
  {
    FillHoldsKeyword(Segments(), content, keyword);
  }

  // ---------------------------------------------------------------------------
  // The response (lines 78-93)

  datatype Part = Part(text: Option<string>)
  datatype Content = Content(parts: Option<seq<Part>>)
  datatype Candidate = Candidate(content: Option<Content>)
  /** The JSON body of a successful POST (`response.data`). */
  datatype ResponseData = ResponseData(candidates: Option<seq<Candidate>>)
  /** The POST's response; `data` absent stands for a falsy `response.data`. */
  datatype ApiResponse = ApiResponse(data: Option<ResponseData>)

  /** `response.data && response.data.candidates` is truthy (an empty array is). */
  predicate HasCandidates(response: ApiResponse) {
    response.data.Some? && response.data.value.candidates.Some?
  }

  /** The first candidate has content, but the content has no `parts`. */
  predicate PartsMissing(response: ApiResponse)
    requires HasCandidates(response)
  {
    var cs := response.data.value.candidates.value;
    |cs| > 0 && cs[0].content.Some? && cs[0].content.value.parts.None?
  }

  /** The text of the first part of the first candidate's content, when that
      whole path exists. */
  function FirstText(response: ApiResponse): Option<string>
    requires HasCandidates(response)
  {
    var cs := response.data.value.candidates.value;
    if |cs| == 0 || cs[0].content.None? || cs[0].content.value.parts.None? then None
    else
      var ps := cs[0].content.value.parts.value;
      if |ps| == 0 then None else ps[0].text
  }

  /** The value of the `if` on lines 86-90. `candidates[0]?.content?.parts[0]`
      guards the candidate and its content with optional chaining but indexes
      `parts` directly, so content without `parts` throws a TypeError. */
  function SelectText(response: ApiResponse): (r: Completion<string>)
    ensures !HasCandidates(response) ==> r == Return(InvalidResponse)
    ensures HasCandidates(response) && PartsMissing(response) ==> r.Throw?
    ensures HasCandidates(response) && !PartsMissing(response) ==>
              match FirstText(response)
              case Some(t) => r == Return(if t != "" then t else NoResponse)
              case None => r == Return(NoResponse)
  {
    if response.data.None? || response.data.value.candidates.None? then Return(InvalidResponse)
    else
      var cs := response.data.value.candidates.value;
      if |cs| == 0 || cs[0].content.None? then Return(NoResponse)
      else if cs[0].content.value.parts.None? then Throw
      else
        var ps := cs[0].content.value.parts.value;
        if |ps| == 0 || ps[0].text.None? || ps[0].text.value == "" then Return(NoResponse)
        else Return(ps[0].text.value)
  }

  /** The string `seoAnalysis` resolves to for a given completion of the POST:
      anything thrown inside the `try`, by the POST or by the selection,
      becomes the generation error. The result is never empty, and it is one of
      the three fixed messages unless the response carries non-empty text,
      which is then passed on unmodified. */
  function Suggestion(post: Completion<ApiResponse>): (r: string)
    ensures r != ""
    ensures post.Throw? ==> r == GenerationError
    ensures post.Return? && !HasCandidates(post.value) ==> r == InvalidResponse
    ensures post.Return? && HasCandidates(post.value) && PartsMissing(post.value) ==> r == GenerationError
    ensures (post.Return? && HasCandidates(post.value) && !PartsMissing(post.value)
             && (FirstText(post.value).None? || FirstText(post.value) == Some(""))) ==> r == NoResponse
    ensures (post.Return? && HasCandidates(post.value) && FirstText(post.value).Some?
             && FirstText(post.value).value != "") ==> r == FirstText(post.value).value
    ensures r in {InvalidResponse, NoResponse, GenerationError}
            || (post.Return? && HasCandidates(post.value) && FirstText(post.value) == Some(r))
  {
    match post
    case Throw => GenerationError
    case Return(response) =>
      match SelectText(response)
      case Return(text) => text
      case Throw => GenerationError
  }

  /** Lines 78-93: post the prompt and select the result inside the `try`; the
      `catch` turns anything thrown, by the POST or by the selection, into the
      generation error. */
  method RequestSuggestions(prompt: string, api: string -> Completion<ApiResponse>) returns (suggestions: string)
    ensures suggestions == Suggestion(api(prompt))
  {
    var post := api(prompt);
    match post {
      case Throw =>
        suggestions := GenerationError;
      case Return(response) =>
        var selected := SelectText(response);
        match selected {
          case Return(text) => suggestions := text;
          case Throw => suggestions := GenerationError;
        }
    }
  }

  /** `seoAnalysis(content, targetKeyword)`: reassigns blank content, builds the
      prompt, then posts it and resolves to the selected string. Returns the
      prompt it posted beside the result. */
  method SeoAnalysis(content: string, targetKeyword: string, api: string -> Completion<ApiResponse>)
    returns (suggestions: string, prompt: string)
    ensures prompt == BuildPrompt(EffectiveContent(content), targetKeyword)
    ensures suggestions == Suggestion(api(prompt))
  {
    var text := content;
    if Trim(text) == [] {
      text := BlankPlaceholder;
    }
    prompt := BuildPrompt(text, targetKeyword);
    suggestions := RequestSuggestions(prompt, api);
  }
}
