/** The commit-message generator of main.go without its transport: the
    prompt, the chat-completion request, and how a decoded response becomes
    a commit message. */
module Completion {
  import opened Wrappers
  import opened Strings
  import opened Configuration

  datatype Message = Message(role: string, content: string)
  datatype ChatRequest = ChatRequest(model: string, messages: seq<Message>, maxTokens: int, temperature: real)
  datatype Choice = Choice(message: Message)
  datatype ApiError = ApiError(message: string)
  /** openAIResponse: the choices and the optional error object. */
  datatype ChatResponse = ChatResponse(choices: seq<Choice>, error: Option<ApiError>)

  /** One POST: the endpoint, the key sent as the bearer token, and the body. */
  datatype ApiCall = ApiCall(endpoint: string, apiKey: string, body: ChatRequest)

  /** How the HTTP exchange ended: no usable response (the request could not
      be built or sent, or its body could not be read), a body that is not a
      response document, or a decoded response. */
  datatype HttpReply = NoResponse(reason: string) | UndecodableBody(reason: string) | Decoded(response: ChatResponse)

  const PromptHead := "Analyze the following code changes and generate a concise Git commit message, providing it in the following languages: "
  const PromptAfterLang := ". Text only: \n\n"
  const PromptAfterDiff := "\n\n "
  const PromptTail := " \n\n"

  /** Where the diff starts in the prompt for language `lang`. */
  function DiffStart(lang: string): nat {
    |PromptHead| + |lang| + |PromptAfterLang|
  }

  /** Where the notes start in the prompt for `lang` and `diff`. */
  function NotesStart(lang: string, diff: string): nat {
    DiffStart(lang) + |diff| + |PromptAfterDiff|
  }

  /** The prompt template: fixed text with the language, the diff and the
      notes inserted verbatim, each at a position fixed by the lengths of the
      fields before it. */
  function Prompt(lang: string, diff: string, notes: string): (p: string)
    ensures |p| == NotesStart(lang, diff) + |notes| + |PromptTail|
    ensures p[..|PromptHead|] == PromptHead
    ensures p[|PromptHead|..|PromptHead| + |lang|] == lang
    ensures p[DiffStart(lang)..DiffStart(lang) + |diff|] == diff
    ensures p[NotesStart(lang, diff)..NotesStart(lang, diff) + |notes|] == notes
    ensures p[NotesStart(lang, diff) + |notes|..] == PromptTail
  {
    PromptHead + lang + PromptAfterLang + diff + PromptAfterDiff + notes + PromptTail
  }

  /** Reads the three fields back out of a prompt, given the lengths of the
      language and of the diff. */
  function PromptFields(p: string, langLen: nat, diffLen: nat): (string, string, string)
    requires |PromptHead| + langLen + |PromptAfterLang| + diffLen + |PromptAfterDiff| + |PromptTail| <= |p|
  {
    var d := |PromptHead| + langLen + |PromptAfterLang|;
    var n := d + diffLen + |PromptAfterDiff|;
    (p[|PromptHead|..|PromptHead| + langLen], p[d..d + diffLen], p[n..|p| - |PromptTail|])
  }

  /** The prompt loses nothing: language, diff and notes can be recovered
      from it once the lengths of the first two are known. */
  lemma PromptRoundTrip(lang: string, diff: string, notes: string)
    ensures PromptFields(Prompt(lang, diff, notes), |lang|, |diff|) == (lang, diff, notes)
  {
  }

  /** The request body generateCommitMessage builds: the configured model,
      token limit and temperature, and one user message holding the prompt. */
  function BuildCall(config: Config, diff: string, lang: string, notes: string): (call: ApiCall)
    ensures call.endpoint == config.openAIEndpoint && call.apiKey == config.apiKey
    ensures call.body.model == config.model && call.body.maxTokens == config.maxTokens
    ensures call.body.temperature == config.temperature
    ensures call.body.messages == [Message("user", Prompt(lang, diff, notes))]
  {
    ApiCall(config.openAIEndpoint, config.apiKey,
            ChatRequest(config.model, [Message("user", Prompt(lang, diff, notes))], config.maxTokens, config.temperature))
  }

  const Quote := "\""

  /** TrimPrefix then TrimSuffix with `"`: at most one quote goes from each
      end, a leading quote is always removed, and so is a trailing one,
      unless the string is the single character `"`, which both calls
      share. */
  function StripQuotes(s: string): (r: string)
    ensures s == r || s == Quote + r || s == r + Quote || s == Quote + r + Quote
    ensures HasPrefix(s, Quote) ==> s == Quote + r || s == Quote + r + Quote
    ensures |s| >= 2 && HasPrefix(s, Quote) && HasSuffix(s, Quote) ==> s == Quote + r + Quote
    ensures !HasPrefix(s, Quote) && !HasSuffix(s, Quote) ==> r == s
    ensures !HasPrefix(s, Quote) && HasSuffix(s, Quote) ==> s == r + Quote
  {
    var t := TrimPrefix(s, Quote);
    var r := TrimSuffix(t, Quote);
    assert HasPrefix(s, Quote) ==> s == Quote + t;
    assert HasSuffix(t, Quote) ==> t == r + Quote;
    assert |s| >= 2 && HasPrefix(s, Quote) && HasSuffix(s, Quote) ==> HasSuffix(t, Quote) by {
      if |s| >= 2 && HasPrefix(s, Quote) && HasSuffix(s, Quote) {
        assert t[|t| - 1] == s[|s| - 1];
      }
    }
    assert !HasPrefix(s, Quote) && HasSuffix(t, Quote) ==> HasSuffix(s, Quote);
    r
  }

  /** The clean-up of the returned content: strip the quotes first, then the
      surrounding white space. The result is the quote-stripped text with
      only white space cut from its ends, and never starts or ends with
      white space. */
  function CleanCompletion(content: string): (r: string)
    ensures Unpadded(r)
    ensures CutFrom(StripQuotes(content), r)
    ensures Unpadded(StripQuotes(content)) ==> r == StripQuotes(content)
  {
    TrimSpaceFixpoint(StripQuotes(content));
    TrimSpace(StripQuotes(content))
  }

  /** A message wrapped in one pair of quotes comes back without them. */
  lemma CleanUnwrapsQuotes(m: string)
    ensures CleanCompletion(Quote + m + Quote) == TrimSpace(m)
    ensures Unpadded(m) ==> CleanCompletion(Quote + m + Quote) == m
  {
    var s := Quote + m + Quote;
    assert HasPrefix(s, Quote) && HasSuffix(s, Quote);
    assert StripQuotes(s) == m;
    TrimSpaceFixpoint(m);
  }

  /** White space on both sides shields the quotes: the padding goes and
      whatever it enclosed is only trimmed, quotes included. */
  lemma CleanTrimsPadding(a: string, m: string, b: string)
    requires AllSpace(a) && AllSpace(b) && a != [] && b != []
    ensures CleanCompletion(a + m + b) == TrimSpace(m)
  {
    var s := a + m + b;
    assert s[0] == a[0] && s[|s| - 1] == b[|b| - 1];
    assert StripQuotes(s) == s;
    TrimSpaceIgnoresPadding(a, m, b);
  }

  const FixBug := "Fix bug"
  const QuotedFixBug := "\"Fix bug\""

  /** Worked case: `"Fix bug"` becomes `Fix bug`. */
  lemma CleanQuotedExample()
    ensures CleanCompletion("\"Fix bug\"") == "Fix bug"
  {
    assert QuotedFixBug == Quote + FixBug + Quote && Unpadded(FixBug);
    CleanUnwrapsQuotes(FixBug);
  }

  /** Worked case: a doubled pair of quotes loses only the outer pair. */
  lemma CleanDoubleQuotedExample()
    ensures CleanCompletion("\"\"Fix bug\"\"") == "\"Fix bug\""
  {
    assert "\"\"Fix bug\"\"" == Quote + QuotedFixBug + Quote && Unpadded(QuotedFixBug);
    CleanUnwrapsQuotes(QuotedFixBug);
  }

  /** Worked case: quotes behind white space survive. */
  lemma CleanSpacedQuotesExample()
    ensures CleanCompletion(" \"Fix bug\" ") == "\"Fix bug\""
  {
    assert " \"Fix bug\" " == " " + QuotedFixBug + " " && AllSpace(" ") && Unpadded(QuotedFixBug);
    CleanTrimsPadding(" ", QuotedFixBug, " ");
    TrimSpaceFixpoint(QuotedFixBug);
  }

  /** The response handling of generateCommitMessage: an error object is a
      failure carrying its message, whatever the choices; no choices give "";
      otherwise the first choice's content, cleaned. */
  function Interpret(resp: ChatResponse): (r: Result<string, string>)
    ensures r.Failure? <==> resp.error.Some?
    ensures r.Failure? ==> r.error == resp.error.value.message
    ensures r.Success? ==> Unpadded(r.value)
    ensures resp.error.None? && resp.choices == [] ==> r == Success("")
  {
    if resp.error.Some? then Failure(resp.error.value.message)
    else if |resp.choices| > 0 then Success(CleanCompletion(resp.choices[0].message.content))
    else Success("")
  }

  /** Without an error object, a non-empty choice list yields the first
      choice's content, cleaned. */
  lemma InterpretTakesFirstChoice(resp: ChatResponse)
    requires resp.error.None? && resp.choices != []
    ensures Interpret(resp) == Success(CleanCompletion(resp.choices[0].message.content))
  {
  }

  /** Only the first choice's content matters: two responses without an
      error object that agree on it (or both have no choices) are read alike,
      whatever their other choices and message roles. */
  lemma InterpretReadsOnlyFirstContent(a: ChatResponse, b: ChatResponse)
    requires a.error.None? && b.error.None?
    requires (a.choices == []) == (b.choices == [])
    requires a.choices != [] && b.choices != [] ==> a.choices[0].message.content == b.choices[0].message.content
    ensures Interpret(a) == Interpret(b)
  {
  }

  /** The commit message a reply leads to, or the reason there is none: every
      transport or decoding problem is a failure, a decoded response is
      interpreted. */
  function MessageFrom(reply: HttpReply): (r: Result<string, string>)
    ensures reply.NoResponse? ==> r == Failure(reply.reason)
    ensures reply.UndecodableBody? ==> r == Failure(reply.reason)
    ensures reply.Decoded? ==> r == Interpret(reply.response)
  {
    match reply
    case NoResponse(reason) => Failure(reason)
    case UndecodableBody(reason) => Failure(reason)
    case Decoded(resp) => Interpret(resp)
  }
}
