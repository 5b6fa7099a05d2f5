/**
 * What `runSummarise` finally writes into the result area, given the outcomes of its
 * asynchronous steps: the stored API key, the content script's reply and the endpoint.
 */
module Summarise {
  import opened Wrappers
  import GeminiClient

  const KeyMissing: string := "API key not found. Please set your API key in the extension options."
  const NoArticle: string := "Could not extract article text from this page."
  const ErrorPrefix: string := "Error: "
  const GenericFailure: string := "Failed to generate summary."

  /** The content script's reply to `GET_ARTICLE_TEXT`: `{ text }`, the text possibly missing. */
  datatype ArticleReply = ArticleReply(text: Option<string>)

  /** The last step of a summarisation: show a message, or show a summary and read it aloud. */
  datatype Completion = Show(message: string) | ShowAndSpeak(summary: string)

  /** JavaScript truthiness of an optional string. */
  predicate Truthy(s: Option<string>)
  {
    s.Some? && s.value != ""
  }

  /** The text the result area holds after the completion. */
  function Displayed(c: Completion): string
  {
    match c
    case Show(message) => message
    case ShowAndSpeak(summary) => summary
  }

  /**
   * The end of `runSummarise` under summary type `summaryType`: a missing key stops it,
   * then a missing article text, then the client settles with a summary or an error.
   */
  function Complete(summaryType: string, apiKey: Option<string>, article: Option<ArticleReply>,
                    server: (string, string) -> GeminiClient.HttpReply): (c: Completion)
    ensures !Truthy(apiKey) ==> c == Show(KeyMissing)
    ensures Truthy(apiKey) && !(article.Some? && Truthy(article.value.text)) ==> c == Show(NoArticle)
    ensures c.ShowAndSpeak? ==>
      c.summary != "" && Truthy(apiKey) && article.Some? && Truthy(article.value.text)
    ensures c.Show? && c.message !in {KeyMissing, NoArticle} ==>
      |c.message| > |ErrorPrefix| && c.message[..|ErrorPrefix|] == ErrorPrefix
    ensures Truthy(apiKey) && article.Some? && Truthy(article.value.text) ==>
      var reply := server(apiKey.value, GeminiClient.Prompt(article.value.text.value, summaryType));
      (reply.Ok? ==> c == ShowAndSpeak(GeminiClient.ReplySummary(reply.data))) &&
      (reply.NotOk? ==> c == Show(ErrorPrefix + GeminiClient.ErrorMessage(reply.body))) &&
      (reply.Rejected? ==> c == Show(ErrorPrefix + GeminiClient.OrElse(Some(reply.message), GenericFailure)))
  {
    if !Truthy(apiKey) then Show(KeyMissing)
    else if !(article.Some? && Truthy(article.value.text)) then Show(NoArticle)
    else
      match GeminiClient.GeminiSummary(article.value.text.value, summaryType, apiKey.value, server)
      case Success(summary) => ShowAndSpeak(summary)
      case Failure(message) => Show(ErrorPrefix + GeminiClient.OrElse(Some(message), GenericFailure))
  }

  /** When the endpoint answers with a non-ok status, the server's message is shown after "Error: ". */
  lemma ServerErrorShown(summaryType: string, key: string, text: string,
                         server: (string, string) -> GeminiClient.HttpReply, message: string)
    requires key != "" && text != "" && message != ""
    requires server(key, GeminiClient.Prompt(text, summaryType))
             == GeminiClient.NotOk(GeminiClient.ErrorReply(Some(GeminiClient.ApiError(Some(message)))))
    ensures Complete(summaryType, Some(key), Some(ArticleReply(Some(text))), server)
            == Show(ErrorPrefix + message)
  {
  }

  /**
   * The fallback "Failed to generate summary." is shown only after a rejection, or after a
   * non-ok status whose own message is that same phrase: an ok status never leads to it.
   */
  lemma GenericFailureOrigin(summaryType: string, apiKey: Option<string>,
                             article: Option<ArticleReply>,
                             server: (string, string) -> GeminiClient.HttpReply)
    requires Complete(summaryType, apiKey, article, server) == Show(ErrorPrefix + GenericFailure)
    ensures Truthy(apiKey) && article.Some? && Truthy(article.value.text)
    ensures var reply := server(apiKey.value, GeminiClient.Prompt(article.value.text.value, summaryType));
      reply.Rejected? || (reply.NotOk? && GeminiClient.ErrorMessage(reply.body) == GenericFailure)
  {
  }
}
