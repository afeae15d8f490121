/**
 * The language-model gateway. A call is a prompt with the model and the token
 * budget it is sent with; the hosted chat-completion service is an oracle
 * that maps a call to the text of `choices[0].message.content`.
 */
module Gateway {
  import opened Records

  /** The model `call_openai_api` uses unless told otherwise. */
  const DefaultModel: string := "gpt-4o-mini"

  /** What each prompt of the wizard is built from (the French wording around it is not modelled). */
  datatype Prompt =
    | TopicIdeasPrompt(sector: string, keywords: string, services: string)
    | AnglesPrompt(topic: string, sector: string)
    | OutlinePrompt(topic: string, angle: string, tone: string, length: string, style: string)
    | SimulatedSearchPrompt(query: set<string>, count: nat)
    | SummaryPrompt(content: string)
    | ContextArticlePrompt(topic: string, angle: string, context: string)
    | ArticlePrompt(topic: string, angle: string, outline: string, inspiration: seq<ProcessedArticle>,
                    tone: string, wordCount: nat, style: string)

  datatype Call = Call(prompt: Prompt, model: string, maxTokens: nat)

  /** The chat-completion endpoint, seen as a function from a call to the reply text. */
  type Completion = Call -> string
}
