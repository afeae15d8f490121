# Article-generator wizard — a verified model

This project models the core of a seven-stage article-generation wizard: a
Streamlit page (`app.py`) that walks a user from a business sector and
keywords to a finished French article. Each stage is driven by a chat-model
call or by a news-index search:

1. initial data;
2. topic choice;
3. inspiration articles;
4. editorial angle;
5. writing parameters;
6. outline;
7. final article.

The model covers the parts of the page that are not rendering or network I/O:

- **Keywords** (`keywords.dfy`): the keyword extraction from a title, the
  search terms, and the de-duplicated query.
- **ResponseParser** (`response_parser.dfy`): the parsers that turn model text
  into typed data.
  - The numbered topic ideas are padded with `"Sujet sur {sector} et {keywords}"`.
  - The editorial angles come from a two-state line scan and are padded with `"Angle k"`.
  - The JSON payload is taken out of a code fence, with the outline default and the
    empty-list default.
- **NewsSearch** (`news_search.dfy`): the news search.
  - It runs the strict-AND relevance filter over the candidates and stops early at the quota.
  - A null publication date aborts the search.
  - The simulation tops up whatever is missing and replaces the index on any failure.
- **Generation** (`generation.dfy`): what final-article generation assembles.
  - Up to three inspiration articles are scraped and summarised; a failed scrape is skipped.
  - A length label maps to a word count.
  - The outline is formatted as prompt text.
  - The summaries are joined into a context.
- **StageEngine** (`stage_engine.dfy`): the session state and its handling.
  - `Wizard` is a class with one field per session key.
  - Navigation and the restart button.
  - What each stage does when it is shown or when one of its controls is used.
  - Generation is lazy: a stage fetches its content only while the field that holds it is empty.

Two lower modules support them. `Strings` models Python's `strip`, `split`,
`lower`, `in`, `find`, `join` and `str(int)` on strings. `Gateway` models the
chat-model request as a value (prompt, model and token budget).

Every external effect is a function-typed parameter:

- the chat model's answer to a request (`Completion`);
- the news index's reply (`NewsIndex`);
- the page fetch plus text extraction (`Extractor`);
- `json.loads` for outlines and for article lists. It is a partial reader that
  returns `None` when the text does not parse.

The date 72 hours back is a parameter. The request *prompts* are modelled as
datatypes holding the values they interpolate, not as the literal prompt text.

Points where the code does something a reader might not expect:

- `next_stage` has no upper bound (`app.py:662-663`).
- The idea placeholder is the single phrase `"Sujet sur {sector} et {keywords}"`.
  Idea lines are not cut at a colon (`app.py:295-310`).
- The final article always goes to `gpt-4o-mini` with a budget of 2000 tokens,
  whatever the word count (`app.py:607`).
- The summaries are folded into a context only by `generate_article_with_context`.
  The page never calls it: `generate_article` puts the processed article records
  into its prompt as they are.
- Stage 7 with a missing parameter does not redirect by itself. It offers a button
  back to stage 5 (`app.py:974-982`).

## Model

| member | source | states |
|---|---|---|
| Keywords.ExtractKeywords | app.py:103-130 | the keywords are the first `max_keywords` significant words of the lower-cased title (all of them when there are fewer), in title order, repeats kept: a prefix of `Significant` of the whitespace tokens |
| Keywords.Significant | app.py:124-127 | the filtered words are the significant ones of the input, in input order, each kept exactly as often as it occurs, and nothing else |
| Keywords.KeywordTerms | app.py:155 | the terms are exactly the non-empty stripped comma-separated pieces of `keywords`, each non-empty, trimmed and free of commas |
| Keywords.StrippedNonEmptyMembers | app.py:155 | a term is kept exactly when its stripped piece is non-empty |
| Keywords.SearchTerms | app.py:149-156 | the search terms are the title keywords, then the sector, then the keyword terms |
| Keywords.Query | app.py:159 | the query holds exactly the search terms, each once; it is as large as the term list exactly when the terms are distinct |
| Keywords.SetOfSequenceSize | app.py:159 | a sequence's set of elements is no larger than the sequence, and equally large exactly when the elements are distinct |
| Keywords.SectorAmongKeywordsIsDeduplicated | app.py:152-159 | a sector that is also one of the keywords appears once in the query, which is then strictly smaller than the term list |
| Keywords.PrefixIsSubsequence | app.py:130 | capping a subsequence of the words keeps it a subsequence (order is kept) |
| NewsSearch.Render | app.py:188-190 | a missing field renders as the default, a null one as `None`, a string as itself |
| NewsSearch.Value | app.py:195-197 | a missing field takes the default, a present one keeps its value, null included |
| NewsSearch.Relevant | app.py:188-193 | (predicate) a candidate is relevant when every search term, lower-cased, occurs in its lower-cased `title description` text |
| NewsSearch.Date | app.py:198 | the date is the first 10 characters of `publishedAt`, empty when it is missing, and fails (`None`) when it is null |
| NewsSearch.ToArticle | app.py:194-199 | the article takes title, url and description with their defaults, and the given date |
| NewsSearch.SearchRequest | app.py:169-177 | the index is asked for twice as many results, by relevance, in French, since the given date |
| NewsSearch.Simulate | app.py:221-259 | (definition) the simulation is the article list read from the model's answer to `SimulateCall`; its reading is stated by the `SimulatedArticles…` lemmas |
| NewsSearch.SimulateCall | app.py:221-245 | the simulation asks the default model with a budget of 1500 tokens for `count` articles on the query |
| NewsSearch.FilterCandidates | app.py:184-203 | the filter loop, with its early exit, computes `Collect`: the articles of the relevant candidates in order up to the quota, or failure at a kept null date |
| NewsSearch.Collect | app.py:184-203 | (definition) the filter as a function: irrelevant candidates skipped, a relevant one converted and appended before the quota test, a null date failing the whole search; characterised by `CollectIsFirstRelevant` |
| NewsSearch.CollectIsFirstRelevant | app.py:186-203 | the loop keeps exactly the first `max(n,1)` relevant candidates, in order, converted, and fails exactly when one of them has a null date |
| NewsSearch.RelevantOnes | app.py:186-193 | the reference list holds only relevant candidates |
| NewsSearch.RelevantOnesIsFilter | app.py:186-193 | the reference keeps every relevant candidate exactly as often as it occurs, nothing else, in the index's order (a subsequence) |
| NewsSearch.Converted | app.py:194-199 | conversion succeeds exactly when no date is null; it then keeps length and converts each candidate at its position |
| NewsSearch.Taken | app.py:201-203 | the loop keeps at most the quota, exactly one when the quota is 0 and a candidate is relevant, at least one when any is relevant, and never more than are relevant |
| NewsSearch.SearchRecentArticles | app.py:133-218 | the search method computes the search function of the inputs and the oracles |
| NewsSearch.SearchRecent | app.py:133-218 | (definition) the search as a function: simulation of `n` on an unusable reply or a failed filter, else the kept articles topped up by the simulation of the missing number; characterised by `SearchOutcome` |
| NewsSearch.SearchOutcome | app.py:179-218 | an unusable reply or a kept null date gives the simulation of `n`; otherwise the first relevant articles, followed by the simulation of exactly the missing number when there are fewer than `n` |
| NewsSearch.KeptArticlesAreRelevant | app.py:186-203 | every article the index contributes comes from a relevant candidate with a date, in order, and there are at most `max(n,1)` of them |
| NewsSearch.EnoughCollected | app.py:184-203 | with at least `n` relevant dated candidates, the filter keeps exactly the first `n` of them, converted |
| NewsSearch.EnoughRelevantNeedsNoSimulation | app.py:201-211 | with at least `n` relevant dated candidates, the result is exactly their first `n` articles and no simulation is appended |
| ResponseParser.IdeaOfSplitsAtFirstDot | app.py:302-304 | a numbered line's idea is the stripped text after its first `.` |
| ResponseParser.PadTo | app.py:307-310 | the padded list has 5 entries: the items first, then the pad |
| ResponseParser.CollectIdeas | app.py:296-304 | the line loop collects, in order, the idea of each trimmed line starting with `1.` to `5.` |
| ResponseParser.IdeaItems | app.py:296-304 | (definition) the ideas of the lines, in order: one per trimmed line starting with `1.` to `5.`; `IdeaItemsOfNumberedList` states its round trip |
| ResponseParser.IdeasList | app.py:294-310 | the list has 5 entries, each a parsed idea or the `Sujet sur …` placeholder |
| ResponseParser.TopicIdeas | app.py:294-310 | the ideas of a reply are the collected ideas, padded with `Sujet sur …` by the loop and cut to 5 |
| ResponseParser.PaddedPrefix | app.py:307-310 | what the padding loop leaves, cut to 5, is the padded list |
| ResponseParser.IdeaOfNumberedLine | app.py:298-304 | a line `k. idea` with k from 1 to 5 is numbered and gives exactly the idea back |
| ResponseParser.NumberedLineIdea | app.py:296-304 | the line `k. idea` contributes exactly that idea |
| ResponseParser.IdeaItemsOfNumberedList | app.py:296-304 | a reply of numbered lines gives its ideas back, in order |
| ResponseParser.TopicIdeasOfNumberedList | app.py:294-310 | a reply of one to five well-formed numbered ideas gives exactly those ideas, followed by the placeholder up to five |
| ResponseParser.ScanAngles | app.py:334-360 | the two-state line scan yields the names of the opening lines, in order, empty ones left out |
| ResponseParser.AngleItems | app.py:337-360 | (definition) the non-empty names of the opening lines, in order; `AngleItemsWellFormed` and `ContinuationIgnored` state its properties |
| ResponseParser.AnglesList | app.py:333-367 | the list has 5 entries, each a parsed angle or the placeholder `Angle k` for its position k |
| ResponseParser.AngleName | app.py:345-353 | (definition) the text after the first `.` (the whole line without one), stripped, a leading `-` dropped, cut at the first `:` and stripped; `AngleNameWellFormed` and `AngleNameOfNumberedEntry` state what it is |
| ResponseParser.EditorialAngles | app.py:333-367 | the angles of a reply are the scanned names, padded with `Angle k` and cut to 5 |
| ResponseParser.AngleNameWellFormed | app.py:345-353 | an angle name is trimmed and holds no `:` |
| ResponseParser.ContinuationIgnored | app.py:354-356 | a line that opens no angle changes nothing |
| ResponseParser.AngleItemsWellFormed | app.py:337-360 | every angle found is non-empty, trimmed and free of `:` |
| ResponseParser.AnglePlaceholders | app.py:364 | the placeholders run from `Angle lo+1` to `Angle hi` |
| ResponseParser.PadAngles | app.py:362-367 | the list has 5 entries: the angles found, then `Angle k` at position k |
| ResponseParser.AngleNameOfNumberedEntry | app.py:339-351 | an entry `d. name: note` gives exactly `name` |
| ResponseParser.AnglesWellFormed | app.py:337-367 | all five angles of any reply are non-empty, trimmed and free of `:` |
| ResponseParser.PlaceholderWellFormed | app.py:364 | a placeholder is non-empty, trimmed and free of `:` |
| ResponseParser.JsonBlockBody | app.py:250-251 | after the tag, the text up to the next tagged fence, cut at its first fence, is the body, when the body holds no fence and does not end in a backtick and no backtick opens what follows the closing fence |
| ResponseParser.FencedPayload | app.py:250-253 | a payload is taken exactly when the reply holds a fence, and it is trimmed |
| ResponseParser.JsonFenceIsFence | app.py:250-253 | a reply that holds the `json` fence holds a fence, so the `elif` branch only sees replies without the tag |
| ResponseParser.FenceAfter | app.py:250-253 | after text that holds no fence and does not end in a backtick, the first fence is the one right after that text |
| ResponseParser.JsonFenceAfter | app.py:250-251 | when `pre` holds no ```` ```json ```` tag, the first tag of `pre + tag + rest` is the one after `pre`, whatever backticks end `pre` |
| ResponseParser.JsonBlockPayload | app.py:250-251 | a reply `pre ```json body ``` post` yields the stripped body, when `pre` holds no ```` ```json ```` tag (inline code and untagged blocks allowed), the body holds no fence and does not end in a backtick, and no backtick opens `post` |
| ResponseParser.PlainBlockPayload | app.py:252-253 | without a `json` tag, a reply `pre ``` body ``` post` yields the stripped body, when `pre` and the body each hold no fence and do not end in a backtick |
| ResponseParser.UnfencedReply | app.py:250-253 | a reply without a fence yields no payload |
| ResponseParser.DefaultOutline | app.py:426-434 | the fallback outline is titled `Article sur {topic}` and has two differently titled sections, each with the subsections `Point 1` and `Point 2` |
| ResponseParser.OutlineFromReply | app.py:411-434 | (definition) the outline read from the fenced payload, or from the whole stripped reply, with the default outline when reading fails; stated case by case by `OutlineOfJsonBlock` and `OutlineOfBareReply` |
| ResponseParser.OutlineOfJsonBlock | app.py:411-434 | a fenced outline is read from the stripped body; what does not parse gives the default outline |
| ResponseParser.OutlineOfBareReply | app.py:416-434 | an unfenced outline is read from the whole stripped reply; what does not parse gives the default outline |
| ResponseParser.SimulatedArticlesOfJsonBlock | app.py:247-259 | fenced simulated articles are read from the stripped body, and are `[]` when it does not parse |
| ResponseParser.SimulatedArticles | app.py:247-259 | (definition) the articles read from the fenced payload, or from the whole reply unstripped, `[]` when reading fails; stated case by case by the two lemmas beside it |
| ResponseParser.SimulatedArticlesOfBareReply | app.py:247-259 | an unfenced reply is read as it is (not stripped), and gives `[]` when it does not parse |
| Generation.SummaryCall | app.py:456-475 | the summary request holds at most the first 4000 characters of the content and goes to `gpt-4o-mini` with 300 tokens |
| Generation.ScrapeAndSummarize | app.py:437-486 | the scrape fails exactly when extraction fails or yields empty text; otherwise it keeps the content and its model summary |
| Generation.Merge | app.py:506-509 | the merged record keeps title, url and date, and takes content and summary from the scrape |
| Generation.ProcessArticlesForGeneration | app.py:489-511 | the loop computes the processed list of the first `max_articles` articles |
| Generation.Processed | app.py:502-509 | (definition) the merged record of every article whose scrape succeeds, in order; `ProcessedConcat`, `ProcessedBound`, `ProcessedAllScraped` and `UnscrapedIsSkipped` state its properties |
| Generation.ProcessedConcat | app.py:502-509 | processing distributes over concatenation (input order is kept) |
| Generation.ProcessedBound | app.py:502-511 | there are never more processed articles than inputs |
| Generation.ProcessedAllScraped | app.py:502-509 | when every scrape succeeds, each input gives exactly its merged record, in order |
| Generation.UnscrapedIsSkipped | app.py:505 | an article whose scrape fails adds nothing |
| Generation.WordCount | app.py:567-571 | 300, 600 and 1200 for the three labels, 600 for anything else |
| Generation.FormatOutline | app.py:574-587 | the nested formatting loops build the outline text |
| Generation.OutlineText | app.py:574-587 | (definition) the header, the numbered sections with their bullets and a blank line each, then the conclusion; `OutlineTextIsJoin` and `OutlineTextRoundTrip` state its shape |
| Generation.AppendSections | app.py:580-585 | the section loop appends each numbered heading, its bullets and a blank line |
| Generation.AppendBullets | app.py:582-583 | the bullet loop appends one `- ` line per subsection |
| Generation.BulletLines | app.py:582-583 | one bullet line per subsection |
| Generation.BulletsAreLines | app.py:582-583 | the bullets are those lines, each ended by a newline |
| Generation.SectionsAreLines | app.py:580-585 | the sections' text is its heading, bullet and blank lines, each ended by a newline |
| Generation.OutlineTextIsJoin | app.py:574-587 | the outline text is its lines joined by newlines |
| Generation.OutlineTextRoundTrip | app.py:574-587 | for single-line fields, splitting the outline text at newlines gives back exactly its lines |
| Generation.ContextEntries | app.py:531-534 | one `Article k Résumé:` entry per processed article, numbered from 1 |
| Generation.ContextText | app.py:531-534 | (definition) the entries joined by a blank line; `ContextOpensWithFirstEntry` and `ContextAppend` state its shape |
| Generation.ContextOpensWithFirstEntry | app.py:531-534 | the context is empty exactly when there are no articles, and otherwise starts with the first entry |
| Generation.ContextAppend | app.py:531-534 | one more article adds a blank line and its entry at the end |
| Generation.ContextArticleCall | app.py:536-553 | the context article request goes to `gpt-4o-mini` with 1500 tokens and carries the joined context |
| Generation.ArticleCall | app.py:566-607 | the article request carries the outline text, the inspiration records and the word count, and goes to the default model with 2000 tokens |
| Generation.GenerateArticle | app.py:558-610 | the article is the model's answer to the request built from the processed first three inspiration articles |
| StageEngine.IdeasCall | app.py:273-284 | the ideas request goes to the default model with 1000 tokens |
| StageEngine.AnglesCall | app.py:317-330 | the angles request goes to the default model with 1000 tokens |
| StageEngine.OutlineCall | app.py:374-407 | the outline request goes to the default model with 1200 tokens |
| StageEngine.Next | app.py:662-663 | (transition) the stage goes up by one, with no upper bound |
| StageEngine.Prev | app.py:666-668 | (transition) the stage goes down by one unless it is 1; `PrevStaysFromOne` states it |
| StageEngine.SubmitInitial | app.py:710-730 | (transition) the typed fields are stored; with sector and keywords filled in, the parsed ideas are stored and the stage moves on; `SubmitInitialAccepts` states it |
| StageEngine.ChooseTopic | app.py:738-746 | (transition) the chosen idea becomes the topic and the stage moves on |
| StageEngine.CustomTopic | app.py:751-764 | (transition) a non-empty custom topic is stored and the stage moves on; an empty one changes nothing |
| StageEngine.ShowInspiration | app.py:780-790 | (transition) the search result is stored only while no article is stored; `InspirationKeptAcrossTopics` states it |
| StageEngine.ShowAngles | app.py:826-831 | (transition) the parsed angles are stored only while there are none; `AnglesGeneratedOnce` states it |
| StageEngine.ChooseAngle | app.py:836-844 | (transition) the chosen angle is stored and the stage moves on |
| StageEngine.CustomAngle | app.py:850-857 | (transition) a non-empty custom angle is stored and the stage moves on; an empty one changes nothing |
| StageEngine.ShowParameters | app.py:873-896 | (transition) each unset parameter takes its list's default; `ShowParametersFillsIn` states it |
| StageEngine.SubmitParameters | app.py:898-901 | (transition) the three choices are stored and the stage moves on; `SubmitParametersKeepsValid` states what follows |
| StageEngine.ShowOutline | app.py:925-933 | (transition) the outline read from the model's reply is stored only while there is none; `OutlineGeneratedOnce` states it |
| StageEngine.ShowArticle | app.py:974-996 | (transition) the article is generated and stored only when the five choices are set, none is stored and an outline exists; `ArticleOnlyWhenReady` states it |
| StageEngine.PrevStaysFromOne | app.py:666-668 | going back never leaves stage 1, moves exactly one stage from any later one, and changes nothing else |
| StageEngine.SubmitInitialAccepts | app.py:710-730 | the first form moves on exactly when sector and keywords are filled in, and then offers five ideas; the typed fields are stored either way |
| StageEngine.AnglesGeneratedOnce | app.py:826-831 | once generated, the five angles stay: showing the stage again does not call the model |
| StageEngine.OutlineGeneratedOnce | app.py:925-962 | once generated, the outline stays; after it is cleared, the next showing generates it again |
| StageEngine.InspirationKeptAcrossTopics | app.py:780-790 | stored articles are never searched again, even after another topic is chosen |
| StageEngine.ArticleOnlyWhenReady | app.py:974-996 | the article is written only with all five choices set, no article stored and an outline present, and then from that outline |
| StageEngine.ShowParametersFillsIn | app.py:873-896 | the parameters stage sets every parameter, keeps a choice already made and changes nothing else |
| StageEngine.NavigationKeepsValid | app.py:614-668 | stage moves keep the session invariant, and the defaults satisfy it |
| StageEngine.TopicStagesKeepValid | app.py:707-770 | the first two stages keep the session invariant (ideas come five at a time) |
| StageEngine.AngleStagesKeepValid | app.py:772-862 | the inspiration and angle stages keep the session invariant (angles come five at a time) |
| StageEngine.LaterStagesKeepValid | app.py:864-996 | the parameter, outline and article stages keep the session invariant |
| StageEngine.SubmitParametersKeepsValid | app.py:873-901 | submitting choices from the lists keeps the invariant, and the article stage is then ready exactly when a topic and an angle are set |
| StageEngine.Wizard.constructor | app.py:613-654 | a fresh session has every key at its default; the session invariant `Valid` holds after it |
| StageEngine.Wizard.GoToStage | app.py:658-659 | only the stage changes, to the given one; the page defines `go_to_stage` but never calls it |
| StageEngine.Wizard.NextStage | app.py:662-663 | only the stage changes, by one; the session invariant `Valid` holds after it |
| StageEngine.Wizard.PrevStage | app.py:666-668 | only the stage changes, back by one unless it is 1; the session invariant `Valid` holds after it |
| StageEngine.Wizard.Reset | app.py:697-702 | every key is back at its default and the stage is 1; the session invariant `Valid` holds after it |
| StageEngine.Wizard.SubmitInitialData | app.py:711-730 | stores the typed fields; it accepts exactly when sector and keywords are filled in, and then stores the parsed ideas and moves on; the session invariant `Valid` holds after it |
| StageEngine.Wizard.ChooseTopicAt | app.py:738-746 | the chosen idea becomes the topic and the stage moves on; the session invariant `Valid` holds after it |
| StageEngine.Wizard.UseCustomTopic | app.py:751-764 | a non-empty custom topic is stored and the stage moves on; an empty one changes nothing; the session invariant `Valid` holds after it |
| StageEngine.Wizard.ShowInspirationStage | app.py:780-790 | the search runs and its result is stored only while no article is stored; the session invariant `Valid` holds after it |
| StageEngine.Wizard.ShowAnglesStage | app.py:826-831 | the angles are generated and stored only while there are none; the session invariant `Valid` holds after it |
| StageEngine.Wizard.ChooseAngleAt | app.py:836-844 | the chosen angle is stored and the stage moves on; the session invariant `Valid` holds after it |
| StageEngine.Wizard.UseCustomAngle | app.py:850-857 | a non-empty custom angle is stored and the stage moves on; an empty one changes nothing; the session invariant `Valid` holds after it |
| StageEngine.Wizard.ShowParametersStage | app.py:873-896 | every unset parameter takes its list's default, and nothing else changes; the session invariant `Valid` holds after it |
| StageEngine.Wizard.SubmitParametersForm | app.py:898-901 | the chosen parameters are stored and the stage moves on; the session invariant `Valid` holds after it |
| StageEngine.Wizard.ShowOutlineStage | app.py:925-933 | the outline is generated and stored only while there is none; the session invariant `Valid` holds after it |
| StageEngine.Wizard.RegenerateOutline | app.py:959-962 | only the outline is cleared; the session invariant `Valid` holds after it |
| StageEngine.Wizard.ShowArticleStage | app.py:974-996 | reports whether the five choices are set; the article is generated only when they are, no article is stored and an outline exists; the session invariant `Valid` holds after it |
| StageEngine.Wizard.BackToParameters | app.py:979-982 | only the stage changes, to 5; the session invariant `Valid` holds after it |
| StageEngine.Wizard.RegenerateArticle | app.py:1033-1036 | only the article is cleared; the session invariant `Valid` holds after it |
| StageEngine.Wizard.BackToOutline | app.py:1038-1040 | only the stage changes, to 6; the session invariant `Valid` holds after it |
| Strings.Strip | app.py:297 | the stripped text has no surrounding whitespace and is no longer than the input |
| Strings.Lower | app.py:121 | (definition) each character through `LowerChar`, which lower-cases the ASCII and Latin-1 capitals; `LowerCases` states the result |
| Strings.LowerCases | app.py:121 | the lower-cased text has the input's length, no ASCII capital, and every character that is not a capital unchanged |
| Strings.StripPadded | app.py:297 | stripping removes exactly the whitespace around a stripped core |
| Strings.Words | app.py:121 | the whitespace tokens are non-empty words without whitespace |
| Strings.WordsOfJoin | app.py:121 | splitting words joined by spaces gives them back |
| Strings.Split | app.py:296 | a split always has at least one piece |
| Strings.JoinSplit | app.py:296 | joining the pieces of a split with the separator gives back the text |
| Strings.SplitJoin | app.py:296 | splitting separator-free pieces joined by the separator gives them back |
| Strings.SplitExcludes | app.py:155 | no piece of a split holds the separator |
| Strings.BeforeFirst | app.py:350 | `split(c, 1)[0]`: a prefix of the text that holds no `c`; `AngleName` cuts the angle name with it |
| Strings.Find | app.py:193 | a found index is an occurrence of the pattern |
| Strings.FindMissesNothing | app.py:193 | no occurrence comes before the found one, and none exists when nothing is found |
| Strings.Contains | app.py:193 | (predicate) `pat in s` is that `Find` finds an occurrence; `ContainsIffOccurs` states its meaning |
| Strings.ContainsIffOccurs | app.py:193 | `pat in s` holds exactly when `pat` occurs at some index of `s` |
| Strings.NatToString | app.py:364 | a number's decimal text is made of digits |
| Strings.ParseNatToString | app.py:364 | reading back a number's decimal text gives the number |

## Left out

- Rendering: page configuration, CSS, the sidebar's stage list, the spinners,
  expanders and debug output (`st.write`), and the clipboard and download buttons.
  They change no session key.
- `call_openai_api` is an oracle that always returns text. The missing key and the
  HTTP errors end in `st.stop()`. That is a `BaseException`, so it passes through
  every `except Exception` and ends the run. The stop in `generate_topic_ideas` is
  not modelled either.
- The network: the HTTP request to the news index, page downloads and text
  extraction are oracles.
- A reply whose JSON does not have the expected shape (a missing key, a wrong
  type) is not modelled. The reader yields typed records or fails as a whole.
- `datetime.now()` is not modelled: the search's start date is a parameter.
  The download file name is not modelled.
- The query string is a set. The order in which `' '.join(set(...))` writes the
  terms is not modelled.
- `lower()` covers the ASCII and Latin-1 capitals only; other Unicode capitals
  are left as they are. `isdigit` covers the ASCII digits only, so a line opening
  with another Unicode digit (such as `²`) is not taken as a new angle.
  `isspace` is modelled in full.
- The prompts' wording is not modelled. Each prompt is a datatype of the values
  it interpolates.
- The article prompt carries the processed records themselves. Python's `repr`
  of the list is not modelled.
- The selectboxes' index computation is not modelled. The `Wizard` methods keep
  the session invariant `Valid`, which keeps that index well defined. The form's widget values are inputs of `SubmitParametersForm`.
- `print` in `scrape_and_summarize_article` is not modelled.
- `api.py` is not modelled: it is entirely commented out.
- These loops are methods of their own, not inline in their source function:
  - ResponseParser.CollectIdeas;
  - ResponseParser.ScanAngles;
  - NewsSearch.FilterCandidates;
  - Generation.AppendSections;
  - Generation.AppendBullets.

  Their enclosing method calls them at the point where the source runs the loop.
- Stage 7 without an outline is modelled as a run that stores nothing. In the
  source, the lookup of the outline's title raises `KeyError`, which ends the run.
- Stages 3, 4 and 6 render whatever the stored value holds. A simulated article
  or outline that lacks a key would fail while rendering; this is not modelled.
