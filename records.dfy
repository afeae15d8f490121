/** The records the wizard passes between its stages. */
module Records {

  /** A JSON string value that may also be `null` (Python's `str` or `None`). */
  datatype Text = Null | Str(s: string)

  /** One key of a JSON object: absent, or present with a string-or-null value. */
  datatype Field = Missing | Present(value: Text)

  /** One element of the news index's `articles` array, as far as the wizard reads it. */
  datatype Candidate = Candidate(title: Field, url: Field, description: Field, publishedAt: Field)

  /**
   * An inspiration article, `{"title", "url", "summary", "date"}`: built from a
   * candidate, or fabricated by the language model in the simulated search.
   */
  datatype Article = Article(title: Text, url: Text, summary: Text, date: string)

  /** What scraping and summarising one article URL yields. */
  datatype Scraped = Scraped(originalContent: string, summary: string)

  /** `{**article, **scraped}`: the article with its summary replaced and its full text added. */
  datatype ProcessedArticle = ProcessedArticle(
    title: Text, url: Text, date: string, originalContent: string, summary: string)

  datatype Section = Section(title: string, subsections: seq<string>)

  /** The article plan `{"title", "introduction", "sections", "conclusion"}`. */
  datatype Outline = Outline(title: string, introduction: string, sections: seq<Section>, conclusion: string)
}
