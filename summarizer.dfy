/**
 * The summarizer (src/summarizer/Summarizer.ts): one prompt, a primary provider tried once,
 * a secondary provider tried once when the primary attempt fails, and defaults for missing
 * fields. The providers' replies and `JSON.parse` are parameters.
 */
module Summarizer {
  import opened Wrappers
  import Text

  /** The two clients the summarizer holds, built from their API keys. */
  datatype Clients = Clients(groqKey: string, openaiKey: string)

  const GroqKeyMissing := "GROQ_API_KEY not found in .env"
  const OpenAiKeyMissing := "OPENAI_API_KEY not found in .env"

  /**
   * The constructor: both keys must be set and non-empty in the environment (the Groq key is
   * checked first); each client gets its key with surrounding whitespace removed.
   */
  function NewSummarizer(env: map<string, string>): (r: Attempt<Clients>)
    ensures r.Ok? <==> ("GROQ_API_KEY" in env && env["GROQ_API_KEY"] != ""
                        && "OPENAI_API_KEY" in env && env["OPENAI_API_KEY"] != "")
    ensures ("GROQ_API_KEY" !in env || env["GROQ_API_KEY"] == "") ==> r == Err(GroqKeyMissing)
    ensures r.Err? && r != Err(GroqKeyMissing) ==> r == Err(OpenAiKeyMissing)
    ensures r.Ok? ==> r.value.groqKey == Text.Trim(env["GROQ_API_KEY"])
                      && r.value.openaiKey == Text.Trim(env["OPENAI_API_KEY"])
  {
    if "GROQ_API_KEY" !in env || env["GROQ_API_KEY"] == "" then Err(GroqKeyMissing)
    else if "OPENAI_API_KEY" !in env || env["OPENAI_API_KEY"] == "" then Err(OpenAiKeyMissing)
    else Ok(Clients(Text.Trim(env["GROQ_API_KEY"]), Text.Trim(env["OPENAI_API_KEY"])))
  }

  /** `SummaryResult`. */
  datatype SummaryResult = SummaryResult(
    summary: string,
    contentIdeas: seq<string>,
    status: string,
    engineUsed: string)

  /** What `JSON.parse` yields, as far as the summarizer reads it: the two optional fields. */
  datatype Parsed = Parsed(summary: Option<string>, contentIdeas: Option<seq<string>>)

  /**
   * What a chat-completion call gives back: it throws, or it returns the first choice's
   * message content, possibly absent (`null`, or no choice at all).
   */
  datatype ProviderReply = Throw(msg: string) | Content(content: Option<string>)

  datatype Provider = OpenAI | Groq

  /** One provider call, with the prompt it was sent. */
  datatype Call = Call(provider: Provider, prompt: string)

  /** The calls made and the value returned or error thrown. */
  datatype SummaryRun = SummaryRun(calls: seq<Call>, outcome: Attempt<SummaryResult>)

  const DefaultSummary := "Summary could not be generated."
  const PrimaryStatus := "Completed"
  const PrimaryEngine := "OpenAI GPT-4o"
  const SecondaryStatus := "Completed (Groq Failover)"
  const SecondaryEngine := "Groq Llama 3.3"
  const EmptyPrimaryContent := "OpenAI returned empty content"

  /** The instructions around the transcription; their wording is not part of this model. */
  const PromptHead := "Analyze the following content.\n### Content:\n\""
  const PromptTail := "\"\nRespond ONLY in JSON format: {\"summary\": ..., \"contentIdeas\": [...]}"

  /** The prompt sent to both providers: the transcription embedded in fixed instructions. */
  function Prompt(transcription: string): (p: string)
    ensures Text.StartsAt(p, |PromptHead|, transcription)
    ensures |p| == |PromptHead| + |transcription| + |PromptTail|
  {
    var p := PromptHead + transcription + PromptTail;
    assert p[|PromptHead|..|PromptHead| + |transcription|] == transcription;
    p
  }

  /** Distinct transcriptions give distinct prompts. */
  lemma PromptInjective(a: string, b: string)
    requires Prompt(a) == Prompt(b)
    ensures a == b
  {
    assert a == Prompt(a)[|PromptHead|..|PromptHead| + |a|];
  }

  /**
   * `summary || default` and `contentIdeas || []`: a missing or empty summary becomes the
   * default sentence, a missing idea list becomes empty; present values are kept.
   */
  function Defaulted(p: Parsed, status: string, engine: string): (r: SummaryResult)
    ensures r.summary != ""
    ensures (p.summary.Some? && p.summary.value != "") ==> r.summary == p.summary.value
    ensures (p.summary.None? || p.summary.value == "") ==> r.summary == DefaultSummary
    ensures r.contentIdeas == (if p.contentIdeas.Some? then p.contentIdeas.value else [])
    ensures r.status == status && r.engineUsed == engine
  {
    SummaryResult(
      if p.summary.Some? && p.summary.value != "" then p.summary.value else DefaultSummary,
      p.contentIdeas.GetOr([]),
      status,
      engine)
  }

  /** Whether the primary attempt returns: content present, non-empty, and parsed. */
  predicate PrimaryUsable(primary: ProviderReply, parse: string -> Attempt<Parsed>) {
    primary.Content? && primary.content.Some? && primary.content.value != ""
    && parse(primary.content.value).Ok?
  }

  /** The text the secondary attempt parses: its content, or `"{}"` when that is absent or empty. */
  function SecondaryText(content: Option<string>): string {
    if content.Some? && content.value != "" then content.value else "{}"
  }

  /**
   * `Summarizer.summarize`. The primary provider is called once with the prompt; if it
   * throws, returns no or empty content, or returns content that does not parse, the secondary
   * provider is called once with the same prompt, and its error, if any, is the final error.
   */
  function Summarize(transcription: string, primary: ProviderReply, secondary: ProviderReply,
                     parse: string -> Attempt<Parsed>): (r: SummaryRun)
    ensures 1 <= |r.calls| <= 2
    ensures r.calls[0] == Call(OpenAI, Prompt(transcription))
    ensures |r.calls| == 2 <==> !PrimaryUsable(primary, parse)
    ensures |r.calls| == 2 ==> r.calls[1] == Call(Groq, r.calls[0].prompt)
    ensures PrimaryUsable(primary, parse) ==>
      r.outcome == Ok(Defaulted(parse(primary.content.value).value, PrimaryStatus, PrimaryEngine))
    ensures !PrimaryUsable(primary, parse) && secondary.Throw? ==> r.outcome == Err(secondary.msg)
    ensures !PrimaryUsable(primary, parse) && secondary.Content? ==>
      match parse(SecondaryText(secondary.content))
      case Ok(p) => r.outcome == Ok(Defaulted(p, SecondaryStatus, SecondaryEngine))
      case Err(m) => r.outcome == Err(m)
  {
    var prompt := Prompt(transcription);
    var first := [Call(OpenAI, prompt)];
    var firstResult: Attempt<Parsed> :=
      match primary
      case Throw(m) => Err(m)
      case Content(c) =>
        if c.None? || c.value == "" then Err(EmptyPrimaryContent) else parse(c.value);
    match firstResult
    case Ok(p) => SummaryRun(first, Ok(Defaulted(p, PrimaryStatus, PrimaryEngine)))
    case Err(_) =>
      var calls := first + [Call(Groq, prompt)];
      match secondary
      case Throw(m) => SummaryRun(calls, Err(m))
      case Content(c) =>
        match parse(SecondaryText(c))
        case Ok(p) => SummaryRun(calls, Ok(Defaulted(p, SecondaryStatus, SecondaryEngine)))
        case Err(m) => SummaryRun(calls, Err(m))
  }

  /** Whenever summarizing returns, the result names one of the two engines, with the status
      that goes with it, and a non-empty summary. */
  lemma SummaryResultShape(transcription: string, primary: ProviderReply, secondary: ProviderReply,
                           parse: string -> Attempt<Parsed>)
    requires Summarize(transcription, primary, secondary, parse).outcome.Ok?
    ensures var res := Summarize(transcription, primary, secondary, parse).outcome.value;
      && res.summary != ""
      && ((res.status == PrimaryStatus && res.engineUsed == PrimaryEngine) <==> PrimaryUsable(primary, parse))
      && ((res.status == SecondaryStatus && res.engineUsed == SecondaryEngine) <==> !PrimaryUsable(primary, parse))
  {
    var run := Summarize(transcription, primary, secondary, parse);
    if !PrimaryUsable(primary, parse) {
      assert secondary.Content?;
      match parse(SecondaryText(secondary.content))
      case Ok(p) =>
      case Err(m) =>
    }
  }

  /** A primary reply whose content is empty or absent triggers failover, whatever the parser does. */
  lemma EmptyPrimaryFailsOver(transcription: string, secondary: ProviderReply,
                              parse: string -> Attempt<Parsed>, content: Option<string>)
    requires content.None? || content.value == ""
    ensures Summarize(transcription, Content(content), secondary, parse).calls
            == [Call(OpenAI, Prompt(transcription)), Call(Groq, Prompt(transcription))]
  {
  }

  /** A primary reply that parses but lacks `summary` (or has it empty) does not fail over: it is
      defaulted and credited to the primary engine. */
  lemma MissingSummaryDoesNotFailOver(transcription: string, secondary: ProviderReply,
                                      parse: string -> Attempt<Parsed>, content: string,
                                      summary: Option<string>, ideas: Option<seq<string>>)
    requires content != "" && parse(content) == Ok(Parsed(summary, ideas))
    requires summary.None? || summary.value == ""
    ensures Summarize(transcription, Content(Some(content)), secondary, parse)
            == SummaryRun([Call(OpenAI, Prompt(transcription))],
                          Ok(SummaryResult(DefaultSummary, ideas.GetOr([]), PrimaryStatus, PrimaryEngine)))
  {
  }

  /** When the primary attempt fails and the secondary returns no content, the secondary's
      content is read as `{}`, which `JSON.parse` turns into an object without fields, and the
      result is the defaulted one rather than an error. */
  lemma EmptySecondaryIsDefaulted(transcription: string, primary: ProviderReply,
                                  parse: string -> Attempt<Parsed>, content: Option<string>)
    requires !PrimaryUsable(primary, parse)
    requires content.None? || content.value == ""
    requires parse("{}") == Ok(Parsed(None, None))
    ensures Summarize(transcription, primary, Content(content), parse).outcome
            == Ok(SummaryResult(DefaultSummary, [], SecondaryStatus, SecondaryEngine))
  {
  }
}
