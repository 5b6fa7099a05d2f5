/**
 * The summarisation client `getGeminiSummary`: it caps the article text, wraps it in
 * the prompt template picked by the summary type, and reduces the endpoint's reply to
 * a summary or an error message. The HTTP exchange itself is a parameter, `server`.
 */
module GeminiClient {
  import opened Wrappers

  /** The article text is cut to this many characters before it is sent. */
  const MaxLength: nat := 20000
  /** Appended to text that was cut. */
  const Ellipsis: string := "..."

  /** The text that goes into the prompt: unchanged up to `MaxLength`, otherwise cut and marked. */
  function Truncate(text: string): (r: string)
    ensures |r| <= MaxLength + |Ellipsis|
    ensures |text| <= MaxLength ==> r == text
    ensures |text| > MaxLength ==>
      |r| == MaxLength + |Ellipsis| && r[..MaxLength] == text[..MaxLength] && r[MaxLength..] == Ellipsis
  {
    if |text| > MaxLength then text[..MaxLength] + Ellipsis else text
  }

  /** Cutting text that was already capped gives it back unchanged. */
  lemma TruncateIdempotent(text: string)
    ensures Truncate(Truncate(text)) == Truncate(text)
  {
  }

  /** The four prompt templates the switch on the summary type chooses between. */
  datatype SummaryKind = Brief | Detailed | Bullets | Default

  /** The `switch (type)`: three tags have their own template, every other tag the default one. */
  function KindOf(tag: string): (k: SummaryKind)
    ensures k == Brief <==> tag == "brief"
    ensures k == Detailed <==> tag == "detailed"
    ensures k == Bullets <==> tag == "bullets"
    ensures k == Default <==> tag !in {"brief", "detailed", "bullets"}
  {
    if tag == "brief" then Brief
    else if tag == "detailed" then Detailed
    else if tag == "bullets" then Bullets
    else Default
  }

  /** Words the templates share; each template is written as these pieces joined. */
  const ProvideA: string := "Provide a "
  const SummaryOfArticle: string := " summary of the following article"
  const SummariseArticle: string := "Summarise the following article"

  /** The fixed text that precedes the article in each prompt. */
  function Template(k: SummaryKind): (t: string)
    ensures |t| >= 2 && t[|t| - 2..] == "\n\n"
    ensures k == Brief || k == Detailed ==> ProvideA <= t
    ensures k == Bullets || k == Default ==> SummariseArticle <= t
  {
    match k
    case Brief => ProvideA + "brief" + SummaryOfArticle + " in 2-3 sentences:\n\n"
    case Detailed => ProvideA + "detailed" + SummaryOfArticle + ", covering all main points and key details:\n\n"
    case Bullets => SummariseArticle + " in 5-7 key points." + " Each line should start with \"- \":\n\n"
    case Default => SummariseArticle + ":\n\n"
  }

  /** The prompt sent for `text` under summary type `tag`: a template, then the capped text. */
  function Prompt(text: string, tag: string): (p: string)
    ensures Template(KindOf(tag)) <= p
    ensures p[|Template(KindOf(tag))|..] == Truncate(text)
    ensures |p| <= |Template(KindOf(tag))| + MaxLength + |Ellipsis|
  {
    Template(KindOf(tag)) + Truncate(text)
  }

  /** The rest of `p` after its prefix `t`. */
  function After(t: string, p: string): (r: string)
    requires t <= p
    ensures p == t + r
  {
    p[|t|..]
  }

  /** Reads a prompt back into the template it starts with and the article text after it. */
  function SplitPrompt(p: string): (r: Option<(SummaryKind, string)>)
    ensures r.Some? ==> p == Template(r.value.0) + r.value.1
  {
    if Template(Brief) <= p then Some((Brief, After(Template(Brief), p)))
    else if Template(Detailed) <= p then Some((Detailed, After(Template(Detailed), p)))
    else if Template(Bullets) <= p then Some((Bullets, After(Template(Bullets), p)))
    else if Template(Default) <= p then Some((Default, After(Template(Default), p)))
    else None
  }

  /** The position at which two different templates first differ. */
  function Fork(k: SummaryKind, other: SummaryKind): (i: nat)
    requires k != other
    ensures i < |Template(k)| && i < |Template(other)| && Template(k)[i] != Template(other)[i]
  {
    match k
    case Brief | Detailed => if other in {Brief, Detailed} then |ProvideA| else 0
    case Bullets | Default => if other in {Bullets, Default} then |SummariseArticle| else 0
  }

  /** No template is a prefix of a prompt built from another. */
  lemma TemplatesPrefixFree(k: SummaryKind, other: SummaryKind, s: string)
    requires k != other
    ensures !(Template(other) <= Template(k) + s)
  {
    var i := Fork(k, other);
    assert (Template(k) + s)[i] == Template(k)[i];
  }

  /** The prompt determines both the template that was chosen and the capped article text. */
  lemma {:induction false} PromptRoundTrip(text: string, tag: string)
    ensures SplitPrompt(Prompt(text, tag)) == Some((KindOf(tag), Truncate(text)))
  {
    var k, p := KindOf(tag), Prompt(text, tag);
    forall other | other != k
      ensures !(Template(other) <= p)
    {
      TemplatesPrefixFree(k, other, Truncate(text));
    }
  }

  /** Two prompts are equal only when they chose the same template and carry the same capped text. */
  lemma PromptInjective(text1: string, tag1: string, text2: string, tag2: string)
    requires Prompt(text1, tag1) == Prompt(text2, tag2)
    ensures KindOf(tag1) == KindOf(tag2) && Truncate(text1) == Truncate(text2)
  {
    PromptRoundTrip(text1, tag1);
    PromptRoundTrip(text2, tag2);
  }

  /** The summary returned when the reply has no usable text. */
  const NoSummary: string := "No summary available."
  /** The error message used when an error reply carries no usable message. */
  const RequestFailed: string := "API request failed"

  /** The shape of a successful `generateContent` reply, each field possibly missing. */
  datatype Part = Part(text: Option<string>)
  datatype Content = Content(parts: Option<seq<Part>>)
  datatype Candidate = Candidate(content: Option<Content>)
  datatype GenerateReply = GenerateReply(candidates: Option<seq<Candidate>>)

  /** The shape of an error reply: `{ error: { message } }`, each field possibly missing. */
  datatype ApiError = ApiError(message: Option<string>)
  datatype ErrorReply = ErrorReply(error: Option<ApiError>)

  /**
   * What `fetch` and `res.json()` produce: an ok status with its parsed body (`None`
   * for a JSON `null`), a non-ok status with its parsed error body, or a rejection
   * (network failure, unparsable body) with the platform's error message.
   */
  datatype HttpReply = Ok(data: Option<GenerateReply>) | NotOk(body: ErrorReply) | Rejected(message: string)

  /** `data?.candidates?.[0]?.content?.parts?.[0]?.text`. */
  function FirstPartText(data: Option<GenerateReply>): (t: Option<string>)
    ensures data.None? || data.value.candidates.None? || data.value.candidates == Some([]) ==> t.None?
    ensures t.Some? ==>
      data.Some? && data.value.candidates.Some? && |data.value.candidates.value| > 0 &&
      data.value.candidates.value[0].content.Some? &&
      data.value.candidates.value[0].content.value.parts.Some? &&
      |data.value.candidates.value[0].content.value.parts.value| > 0 &&
      data.value.candidates.value[0].content.value.parts.value[0].text == t
    ensures
      (data.Some? && data.value.candidates.Some? && |data.value.candidates.value| > 0 &&
       data.value.candidates.value[0].content.Some? &&
       data.value.candidates.value[0].content.value.parts.Some? &&
       |data.value.candidates.value[0].content.value.parts.value| > 0)
      ==> t == data.value.candidates.value[0].content.value.parts.value[0].text
  {
    if data.Some? && data.value.candidates.Some? && |data.value.candidates.value| > 0 then
      var content := data.value.candidates.value[0].content;
      if content.Some? && content.value.parts.Some? && |content.value.parts.value| > 0 then
        content.value.parts.value[0].text
      else None
    else None
  }

  /** JavaScript's `a || b` where `a` is an optional string: `b` unless `a` is a non-empty string. */
  function OrElse(a: Option<string>, b: string): (r: string)
    ensures a.Some? && a.value != "" ==> r == a.value
    ensures (a.None? || a.value == "") ==> r == b
    ensures b != "" ==> r != ""
  {
    if a.Some? && a.value != "" then a.value else b
  }

  /** The summary read from an ok reply: the first candidate's first part text, else the fallback. */
  function ReplySummary(data: Option<GenerateReply>): (r: string)
    ensures r != ""
    ensures r == NoSummary || FirstPartText(data) == Some(r)
    ensures FirstPartText(data).Some? && FirstPartText(data).value != "" ==> FirstPartText(data) == Some(r)
  {
    OrElse(FirstPartText(data), NoSummary)
  }

  /** The message of the error thrown for a non-ok reply: the server's message, else the fallback. */
  function ErrorMessage(body: ErrorReply): (m: string)
    ensures m != ""
    ensures m == RequestFailed || (body.error.Some? && body.error.value.message == Some(m))
    ensures body.error.Some? && body.error.value.message.Some? && body.error.value.message.value != "" ==>
      m == body.error.value.message.value
  {
    if body.error.Some? then OrElse(body.error.value.message, RequestFailed) else RequestFailed
  }

  /** A reply that carries summary `s` as its only candidate's only part. */
  function SingleReply(s: string): GenerateReply
  {
    GenerateReply(Some([Candidate(Some(Content(Some([Part(Some(s))]))))]))
  }

  /** A non-empty summary put into the reply shape is read back unchanged, whatever follows it. */
  lemma ReplyRoundTrip(s: string, moreParts: seq<Part>, moreCandidates: seq<Candidate>)
    requires s != ""
    ensures ReplySummary(Some(SingleReply(s))) == s
    ensures ReplySummary(Some(GenerateReply(Some(
      [Candidate(Some(Content(Some([Part(Some(s))] + moreParts))))] + moreCandidates)))) == s
  {
  }

  /** A non-empty server message in the error shape is the message of the failure. */
  lemma ErrorRoundTrip(m: string)
    requires m != ""
    ensures ErrorMessage(ErrorReply(Some(ApiError(Some(m))))) == m
  {
  }

  /**
   * `getGeminiSummary(text, type, apiKey)`: asks `server` (the endpoint, given the key
   * and the prompt) and settles with a summary or rejects with an error message.
   */
  function GeminiSummary(text: string, tag: string, apiKey: string, server: (string, string) -> HttpReply)
    : (r: Result<string, string>)
    ensures r.Success? ==> r.value != "" && server(apiKey, Prompt(text, tag)).Ok?
    ensures server(apiKey, Prompt(text, tag)).Ok? ==> r == Success(ReplySummary(server(apiKey, Prompt(text, tag)).data))
    ensures server(apiKey, Prompt(text, tag)).NotOk? ==> r == Failure(ErrorMessage(server(apiKey, Prompt(text, tag)).body))
    ensures server(apiKey, Prompt(text, tag)).Rejected? ==> r == Failure(server(apiKey, Prompt(text, tag)).message)
    ensures r.Failure? && r.error == "" ==> server(apiKey, Prompt(text, tag)) == Rejected("")
  {
    match server(apiKey, Prompt(text, tag))
    case Ok(data) => Success(ReplySummary(data))
    case NotOk(body) => Failure(ErrorMessage(body))
    case Rejected(message) => Failure(message)
  }
}
