/**
 * `search_recent_articles`: the news-index query built from the topic, the
 * sector and the keywords, the relevance filter over the returned
 * candidates, and the language-model simulation that fills in for missing
 * articles or replaces the search when it fails.
 */
module NewsSearch {
  import opened Wrappers
  import opened Strings
  import opened Records
  import opened Gateway
  import opened Keywords
  import opened ResponseParser

  /** The request sent to the news index (its API key is configuration and not modelled). */
  datatype NewsRequest = NewsRequest(query: set<string>, from: string, sortBy: string, pageSize: nat, language: string)

  /**
   * What the news index answers. `RequestFailed` stands for every exception
   * on the way: a transport error, an error status, a body that is not JSON.
   * `articles` is `None` both when the key is absent and when it is not a
   * list; the wizard then falls back to the simulation either way.
   */
  datatype NewsReply = RequestFailed | Reply(status: Field, articles: Option<seq<Candidate>>)

  type NewsIndex = NewsRequest -> NewsReply

  /** The JSON reader for the simulated articles (`json.loads`). */
  type ArticlesReader = string -> Option<seq<Article>>

  /** How a field reads in the f-string: its default when missing, `"None"` when null. */
  function Render(f: Field, default: string): (r: string)
    ensures f.Missing? ==> r == default
    ensures f == Present(Null) ==> r == "None"
    ensures f.Present? && f.value.Str? ==> r == f.value.s
  {
    match f
    case Missing => default
    case Present(Null) => "None"
    case Present(Str(s)) => s
  }

  /** `article.get(key, default)`: the stored value, or the default when the key is missing. */
  function Value(f: Field, default: string): (r: Text)
    ensures f.Missing? ==> r == Str(default)
    ensures f.Present? ==> r == f.value
  {
    match f
    case Missing => Str(default)
    case Present(v) => v
  }

  /** The lower-cased title and description the relevance test searches. */
  function ArticleText(c: Candidate): string {
    Lower(Render(c.title, "") + " " + Render(c.description, ""))
  }

  /** Every search term, lower-cased, occurs in the candidate's text. */
  predicate Relevant(c: Candidate, terms: seq<string>) {
    forall i :: 0 <= i < |terms| ==> Contains(ArticleText(c), Lower(terms[i]))
  }

  /**
   * `article.get("publishedAt", "")[:10]`: the day of publication. Slicing a
   * null raises, which is `None` here.
   */
  function Date(f: Field): (r: Option<string>)
    ensures f.Missing? ==> r == Some("")
    ensures f == Present(Null) <==> r.None?
    ensures f.Present? && f.value.Str? ==> r == Some(Prefix(f.value.s, 10)) && |r.value| <= 10
  {
    match f
    case Missing => Some("")
    case Present(Null) => None
    case Present(Str(s)) => Some(Prefix(s, 10))
  }

  /** The article kept for a relevant candidate, published on `date`. */
  function ToArticle(c: Candidate, date: string): (a: Article)
    ensures a.title == Value(c.title, "Article sans titre")
    ensures a.url == Value(c.url, "#")
    ensures a.summary == Value(c.description, "Pas de description disponible.")
    ensures a.date == date
  {
    Article(Value(c.title, "Article sans titre"), Value(c.url, "#"),
            Value(c.description, "Pas de description disponible."), date)
  }

  /** `Some(prefix + rest)`, or `None` when the rest failed. */
  function Prepend(prefix: seq<Article>, rest: Option<seq<Article>>): Option<seq<Article>> {
    match rest
    case None => None
    case Some(r) => Some(prefix + r)
  }

  lemma PrependNothing(rest: Option<seq<Article>>)
    ensures Prepend([], rest) == rest
  {
    if rest.Some? {
      assert [] + rest.value == rest.value;
    }
  }

  lemma PrependTwice(p: seq<Article>, q: seq<Article>, rest: Option<seq<Article>>)
    ensures Prepend(p + q, rest) == Prepend(p, Prepend(q, rest))
  {
    if rest.Some? {
      assert p + q + rest.value == p + (q + rest.value);
    }
  }

  /**
   * The filter loop over the candidates, `quota` articles still wanted: the
   * relevant candidates become articles until the quota is reached (at least
   * one is always taken, since the count is checked after the append); a
   * null date on one of them aborts the whole search (`None`).
   */
  function Collect(cands: seq<Candidate>, terms: seq<string>, quota: nat): Option<seq<Article>>
    decreases |cands|
  {
    if cands == [] then Some([])
    else if !Relevant(cands[0], terms) then Collect(cands[1..], terms, quota)
    else match Date(cands[0].publishedAt)
      case None => None
      case Some(d) =>
        if quota <= 1 then Some([ToArticle(cands[0], d)])
        else Prepend([ToArticle(cands[0], d)], Collect(cands[1..], terms, quota - 1))
  }

  /** The candidates from `i` on are those after `i`, behind candidate `i`. */
  lemma Unfold(cands: seq<Candidate>, i: nat)
    requires i < |cands|
    ensures cands[i..] != [] && cands[i..][0] == cands[i] && cands[i..][1..] == cands[i + 1..]
  {
  }

  /** The filter passes over an irrelevant candidate. */
  lemma CollectSkip(cands: seq<Candidate>, i: nat, terms: seq<string>, quota: nat)
    requires i < |cands| && !Relevant(cands[i], terms)
    ensures Collect(cands[i..], terms, quota) == Collect(cands[i + 1..], terms, quota)
  {
    Unfold(cands, i);
  }

  /** The filter fails at a relevant candidate with a null date. */
  lemma CollectFail(cands: seq<Candidate>, i: nat, terms: seq<string>, quota: nat)
    requires i < |cands| && Relevant(cands[i], terms) && Date(cands[i].publishedAt).None?
    ensures Collect(cands[i..], terms, quota) == None
  {
    Unfold(cands, i);
  }

  /** The filter keeps a relevant candidate with a date, and stops when it was the last one wanted. */
  lemma CollectKeep(cands: seq<Candidate>, i: nat, terms: seq<string>, quota: nat, a: Article)
    requires i < |cands| && Relevant(cands[i], terms) && Date(cands[i].publishedAt).Some?
    requires a == ToArticle(cands[i], Date(cands[i].publishedAt).value)
    ensures Collect(cands[i..], terms, quota) ==
      if quota <= 1 then Some([a]) else Prepend([a], Collect(cands[i + 1..], terms, quota - 1))
  {
    Unfold(cands, i);
  }

  /** The simulation asked for `count` articles on `query`. */
  function SimulateCall(query: set<string>, count: nat): (c: Call)
    ensures c.prompt == SimulatedSearchPrompt(query, count)
    ensures c.model == DefaultModel && c.maxTokens == 1500
  {
    Call(SimulatedSearchPrompt(query, count), DefaultModel, 1500)
  }

  /** `simulate_search_with_openai(query, count)`: the articles read from the model's reply. */
  function Simulate(query: set<string>, count: nat, llm: Completion, parse: ArticlesReader): seq<Article> {
    SimulatedArticles(llm(SimulateCall(query, count)), parse)
  }

  /** The news-index request for `n` results: twice as many, by relevance, in French, since `from`. */
  function SearchRequest(query: set<string>, from: string, n: nat): (r: NewsRequest)
    ensures r.query == query && r.from == from
    ensures r.pageSize == 2 * n && r.sortBy == "relevancy" && r.language == "fr"
  {
    NewsRequest(query, from, "relevancy", 2 * n, "fr")
  }

  /** The news index answered with status `"ok"` and an article list. */
  predicate Usable(reply: NewsReply) {
    reply.Reply? && reply.status == Present(Str("ok")) && reply.articles.Some?
  }

  /**
   * `search_recent_articles(topic, sector, keywords, num_results=n)`; `from`
   * is the day 72 hours before now, `news` the news index, `llm` and `parse`
   * the model and JSON reader the simulation uses.
   */
  function SearchRecent(topic: string, sector: string, keywords: string, n: nat, from: string,
                        news: NewsIndex, llm: Completion, parse: ArticlesReader): seq<Article>
  {
    var terms := SearchTerms(topic, sector, keywords);
    var query := Query(terms);
    var reply := news(SearchRequest(query, from, n));
    if !Usable(reply) then Simulate(query, n, llm, parse)
    else match Collect(reply.articles.value, terms, n)
      case None => Simulate(query, n, llm, parse)
      case Some(found) =>
        if |found| < n then found + Simulate(query, n - |found|, llm, parse) else found
  }

  /** The filter loop's invariant: `articles` kept so far, the candidates from `i` on still to see. */
  predicate Filtering(cands: seq<Candidate>, terms: seq<string>, n: nat, i: nat, articles: seq<Article>)
    requires i <= |cands|
  {
    (articles == [] || |articles| < n) &&
    Collect(cands, terms, n) == Prepend(articles, Collect(cands[i..], terms, n - |articles|))
  }

  /** An irrelevant candidate is passed over. */
  lemma FilterSkips(cands: seq<Candidate>, terms: seq<string>, n: nat, i: nat, articles: seq<Article>)
    requires i < |cands| && !Relevant(cands[i], terms)
    requires Filtering(cands, terms, n, i, articles)
    ensures Filtering(cands, terms, n, i + 1, articles)
  {
    CollectSkip(cands, i, terms, n - |articles|);
  }

  /** A relevant candidate with a null date makes the whole filter fail. */
  lemma FilterFails(cands: seq<Candidate>, terms: seq<string>, n: nat, i: nat, articles: seq<Article>)
    requires i < |cands| && Relevant(cands[i], terms) && Date(cands[i].publishedAt).None?
    requires Filtering(cands, terms, n, i, articles)
    ensures Collect(cands, terms, n) == None
  {
    CollectFail(cands, i, terms, n - |articles|);
  }

  /** A relevant candidate with a date is kept, and when it is the `n`-th the filter stops there. */
  lemma FilterStops(cands: seq<Candidate>, terms: seq<string>, n: nat, i: nat, articles: seq<Article>, a: Article)
    requires i < |cands| && Relevant(cands[i], terms) && Date(cands[i].publishedAt).Some?
    requires a == ToArticle(cands[i], Date(cands[i].publishedAt).value)
    requires Filtering(cands, terms, n, i, articles) && |articles + [a]| >= n
    ensures Collect(cands, terms, n) == Some(articles + [a])
  {
    var quota := n - |articles|;
    CollectKeep(cands, i, terms, quota, a);
    KeepOne(Collect(cands, terms, n), articles, a, n, Collect(cands[i..], terms, quota), None);
  }

  /** A relevant candidate with a date is kept, and with fewer than `n` kept the filter goes on. */
  lemma FilterKeeps(cands: seq<Candidate>, terms: seq<string>, n: nat, i: nat, articles: seq<Article>, a: Article)
    requires i < |cands| && Relevant(cands[i], terms) && Date(cands[i].publishedAt).Some?
    requires a == ToArticle(cands[i], Date(cands[i].publishedAt).value)
    requires Filtering(cands, terms, n, i, articles) && |articles + [a]| < n
    ensures Filtering(cands, terms, n, i + 1, articles + [a])
  {
    var quota := n - |articles|;
    CollectKeep(cands, i, terms, quota, a);
    KeepOne(Collect(cands, terms, n), articles, a, n, Collect(cands[i..], terms, quota),
            Collect(cands[i + 1..], terms, quota - 1));
  }

  /** Keeping article `a` when `rest` was what the filter still had to add after `articles`. */
  lemma KeepOne(total: Option<seq<Article>>, articles: seq<Article>, a: Article, n: nat,
                rest: Option<seq<Article>>, after: Option<seq<Article>>)
    requires articles == [] || |articles| < n
    requires total == Prepend(articles, rest)
    requires rest == if n - |articles| <= 1 then Some([a]) else Prepend([a], after)
    ensures |articles + [a]| >= n ==> total == Some(articles + [a])
    ensures |articles + [a]| < n ==> total == Prepend(articles + [a], after) && n - |articles + [a]| == n - |articles| - 1
  {
    if n - |articles| > 1 {
      PrependTwice(articles, [a], after);
    }
  }

  /** Every candidate seen: the articles kept are the filter's result. */
  lemma FilterEnds(cands: seq<Candidate>, terms: seq<string>, n: nat, articles: seq<Article>)
    requires Filtering(cands, terms, n, |cands|, articles)
    ensures Collect(cands, terms, n) == Some(articles)
  {
    assert cands[|cands|..] == [];
    assert articles + [] == articles;
  }

  /**
   * The filter loop of the search: it stops as soon as enough articles are
   * kept, and gives up (`None`) at a kept candidate with a null date.
   */
  method FilterCandidates(cands: seq<Candidate>, terms: seq<string>, n: nat) returns (found: Option<seq<Article>>)
    ensures found == Collect(cands, terms, n)
  {
    var articles: seq<Article> := [];
    var i := 0;
    assert cands[0..] == cands;
    PrependNothing(Collect(cands, terms, n));
    while i < |cands|
      invariant 0 <= i <= |cands|
      invariant Filtering(cands, terms, n, i, articles)
    {
      var c := cands[i];
      if !Relevant(c, terms) {
        FilterSkips(cands, terms, n, i, articles);
      } else {
        var date := Date(c.publishedAt);
        if date.None? {
          FilterFails(cands, terms, n, i, articles);
          return None;
        }
        var a := ToArticle(c, date.value);
        if |articles + [a]| >= n {
          FilterStops(cands, terms, n, i, articles, a);
          return Some(articles + [a]);
        }
        FilterKeeps(cands, terms, n, i, articles, a);
        articles := articles + [a];
      }
      i := i + 1;
    }
    FilterEnds(cands, terms, n, articles);
    found := Some(articles);
  }

  /** The search itself: the news index first, the simulation for what it does not supply. */
  method SearchRecentArticles(topic: string, sector: string, keywords: string, n: nat, from: string,
                              news: NewsIndex, llm: Completion, parse: ArticlesReader)
    returns (articles: seq<Article>)
    ensures articles == SearchRecent(topic, sector, keywords, n, from, news, llm, parse)
  {
    var terms := SearchTerms(topic, sector, keywords);
    var query := Query(terms);
    var reply := news(SearchRequest(query, from, n));
    if !Usable(reply) {
      return Simulate(query, n, llm, parse);
    }
    var found := FilterCandidates(reply.articles.value, terms, n);
    if found.None? {
      return Simulate(query, n, llm, parse);
    }
    articles := found.value;
    if |articles| < n {
      articles := articles + Simulate(query, n - |articles|, llm, parse);
    }
  }

  // ---------------------------------------------------------------- reference definition

  /** The relevant candidates, in the order the news index returned them. */
  function RelevantOnes(cands: seq<Candidate>, terms: seq<string>): (r: seq<Candidate>)
    ensures |r| <= |cands|
    ensures forall i :: 0 <= i < |r| ==> Relevant(r[i], terms)
    decreases |cands|
  {
    if cands == [] then []
    else if Relevant(cands[0], terms) then [cands[0]] + RelevantOnes(cands[1..], terms)
    else RelevantOnes(cands[1..], terms)
  }

  /**
   * The reference keeps every relevant candidate, as often as it occurs, and
   * nothing else, in the index's order.
   */
  lemma {:induction false} RelevantOnesIsFilter(cands: seq<Candidate>, terms: seq<string>)
    ensures forall c :: multiset(RelevantOnes(cands, terms))[c] == if Relevant(c, terms) then multiset(cands)[c] else 0
    ensures IsSubsequence(RelevantOnes(cands, terms), cands)
    decreases |cands|
  {
    if cands != [] {
      RelevantOnesIsFilter(cands[1..], terms);
      assert cands == [cands[0]] + cands[1..];
      assert multiset(cands) == multiset{cands[0]} + multiset(cands[1..]);
    }
  }

  /** The articles of the given candidates, or `None` when one has a null date. */
  function Converted(cands: seq<Candidate>): (r: Option<seq<Article>>)
    ensures r.Some? <==> forall i :: 0 <= i < |cands| ==> cands[i].publishedAt != Present(Null)
    ensures r.Some? ==> |r.value| == |cands|
    ensures r.Some? ==> forall i :: 0 <= i < |cands| ==> r.value[i] == ToArticle(cands[i], Date(cands[i].publishedAt).value)
    decreases |cands|
  {
    if cands == [] then Some([])
    else match Date(cands[0].publishedAt)
      case None => None
      case Some(d) => Prepend([ToArticle(cands[0], d)], Converted(cands[1..]))
  }

  /** How many relevant candidates the loop keeps: at least one when there is one, at most the quota. */
  function Taken(quota: nat, available: nat): (k: nat)
    ensures k <= available
    ensures available > 0 ==> k >= 1
    ensures quota >= 1 ==> k <= quota
    ensures k == available || k == quota || (quota == 0 && k == 1)
    ensures quota == 0 && available > 0 ==> k == 1
  {
    var wanted := if quota == 0 then 1 else quota;
    if available <= wanted then available else wanted
  }

  /** With a quota of at most one, the filter keeps a relevant first candidate alone. */
  lemma CollectKeepsOne(cands: seq<Candidate>, terms: seq<string>, quota: nat)
    requires cands != [] && Relevant(cands[0], terms) && quota <= 1
    ensures var rel := RelevantOnes(cands, terms);
      Collect(cands, terms, quota) == Converted(rel[..Taken(quota, |rel|)])
  {
    var rel := RelevantOnes(cands, terms);
    assert rel == [cands[0]] + RelevantOnes(cands[1..], terms);
    assert Taken(quota, |rel|) == 1;
    assert rel[..1] == [cands[0]];
    assert [cands[0]][1..] == [];
    match Date(cands[0].publishedAt)
    case None =>
    case Some(d) =>
      assert [ToArticle(cands[0], d)] + [] == [ToArticle(cands[0], d)];
  }

  /** The articles of a candidate list that starts with `c`. */
  lemma ConvertedCons(c: Candidate, tail: seq<Candidate>)
    ensures Converted([c] + tail) ==
      match Date(c.publishedAt)
      case None => None
      case Some(d) => Prepend([ToArticle(c, d)], Converted(tail))
  {
    assert ([c] + tail)[0] == c && ([c] + tail)[1..] == tail;
  }

  /** With a quota above one, the filter goes on past a relevant first candidate. */
  lemma CollectRelevantHead(cands: seq<Candidate>, terms: seq<string>, quota: nat)
    requires cands != [] && Relevant(cands[0], terms) && quota > 1
    ensures Collect(cands, terms, quota) ==
      match Date(cands[0].publishedAt)
      case None => None
      case Some(d) => Prepend([ToArticle(cands[0], d)], Collect(cands[1..], terms, quota - 1))
  {
  }

  /** With a quota above one, a relevant first candidate leads the articles kept from the rest. */
  lemma CollectKeepsFirst(cands: seq<Candidate>, terms: seq<string>, quota: nat)
    requires cands != [] && Relevant(cands[0], terms) && quota > 1
    requires var rest := RelevantOnes(cands[1..], terms);
      Collect(cands[1..], terms, quota - 1) == Converted(rest[..Taken(quota - 1, |rest|)])
    ensures var rel := RelevantOnes(cands, terms);
      Collect(cands, terms, quota) == Converted(rel[..Taken(quota, |rel|)])
  {
    var rel := RelevantOnes(cands, terms);
    var rest := RelevantOnes(cands[1..], terms);
    assert rel == [cands[0]] + rest;
    var k := Taken(quota - 1, |rest|);
    assert Taken(quota, |rel|) == k + 1;
    assert rel[..k + 1] == [cands[0]] + rest[..k];
    ConvertedCons(cands[0], rest[..k]);
    CollectRelevantHead(cands, terms, quota);
  }

  /**
   * The filter loop keeps the first relevant candidates, as many as the
   * quota asks for (at least one), and fails exactly when one of those has a
   * null date.
   */
  lemma {:induction false} CollectIsFirstRelevant(cands: seq<Candidate>, terms: seq<string>, quota: nat)
    ensures var rel := RelevantOnes(cands, terms);
      Collect(cands, terms, quota) == Converted(rel[..Taken(quota, |rel|)])
    decreases |cands|
  {
    if cands != [] {
      if !Relevant(cands[0], terms) {
        CollectIsFirstRelevant(cands[1..], terms, quota);
        assert RelevantOnes(cands, terms) == RelevantOnes(cands[1..], terms);
      } else {
        if quota <= 1 {
          CollectKeepsOne(cands, terms, quota);
        } else {
          CollectIsFirstRelevant(cands[1..], terms, quota - 1);
          CollectKeepsFirst(cands, terms, quota);
        }
      }
    }
  }

  /**
   * The search's outcome: the simulation alone when the news index fails,
   * answers without an article list, or yields a null date among the kept
   * articles; otherwise the first relevant articles, topped up by the
   * simulation for exactly the missing number.
   */
  lemma SearchOutcome(topic: string, sector: string, keywords: string, n: nat, from: string,
                      news: NewsIndex, llm: Completion, parse: ArticlesReader)
    ensures var terms := SearchTerms(topic, sector, keywords);
      var query := Query(terms);
      var reply := news(SearchRequest(query, from, n));
      var result := SearchRecent(topic, sector, keywords, n, from, news, llm, parse);
      if !Usable(reply) then result == Simulate(query, n, llm, parse)
      else
        var rel := RelevantOnes(reply.articles.value, terms);
        var kept := Converted(rel[..Taken(n, |rel|)]);
        if kept.None? then result == Simulate(query, n, llm, parse)
        else if |kept.value| < n then result == kept.value + Simulate(query, n - |kept.value|, llm, parse)
        else result == kept.value
  {
    var terms := SearchTerms(topic, sector, keywords);
    var reply := news(SearchRequest(Query(terms), from, n));
    if Usable(reply) {
      CollectIsFirstRelevant(reply.articles.value, terms, n);
    }
  }

  /**
   * Every article the news index contributed passes the relevance test, and
   * there are never more of them than asked for (one, when none was asked).
   */
  lemma KeptArticlesAreRelevant(cands: seq<Candidate>, terms: seq<string>, quota: nat)
    requires Collect(cands, terms, quota).Some?
    ensures var kept := Collect(cands, terms, quota).value;
      var rel := RelevantOnes(cands, terms);
      |kept| <= |rel| && |kept| <= (if quota == 0 then 1 else quota) &&
      forall i :: 0 <= i < |kept| ==>
        Relevant(rel[i], terms) && rel[i].publishedAt != Present(Null) &&
        kept[i] == ToArticle(rel[i], Date(rel[i].publishedAt).value)
  {
    CollectIsFirstRelevant(cands, terms, quota);
  }

  /** With at least `n` relevant, dated candidates, the filter keeps exactly the first `n` of them. */
  lemma EnoughCollected(cands: seq<Candidate>, terms: seq<string>, n: nat)
    requires n >= 1
    requires var rel := RelevantOnes(cands, terms);
      |rel| >= n && forall i :: 0 <= i < n ==> rel[i].publishedAt != Present(Null)
    ensures var rel := RelevantOnes(cands, terms);
      var found := Collect(cands, terms, n);
      found.Some? && |found.value| == n &&
      forall i :: 0 <= i < n ==> found.value[i] == ToArticle(rel[i], Date(rel[i].publishedAt).value)
  {
    var rel := RelevantOnes(cands, terms);
    CollectIsFirstRelevant(cands, terms, n);
    assert Taken(n, |rel|) == n;
    var first := rel[..n];
    assert forall i :: 0 <= i < |first| ==> first[i].publishedAt != Present(Null);
    var kept := Converted(first);
    assert kept.Some? && |kept.value| == n;
  }

  /** When the news index answers with at least `n` relevant, dated candidates, no simulation is asked for. */
  lemma EnoughRelevantNeedsNoSimulation(topic: string, sector: string, keywords: string, n: nat, from: string,
                                        news: NewsIndex, llm: Completion, parse: ArticlesReader)
    requires n >= 1
    requires var terms := SearchTerms(topic, sector, keywords);
      var reply := news(SearchRequest(Query(terms), from, n));
      Usable(reply) &&
      var rel := RelevantOnes(reply.articles.value, terms);
      |rel| >= n && forall i :: 0 <= i < n ==> rel[i].publishedAt != Present(Null)
    ensures var terms := SearchTerms(topic, sector, keywords);
      var rel := RelevantOnes(news(SearchRequest(Query(terms), from, n)).articles.value, terms);
      var result := SearchRecent(topic, sector, keywords, n, from, news, llm, parse);
      |result| == n && forall i :: 0 <= i < n ==> result[i] == ToArticle(rel[i], Date(rel[i].publishedAt).value)
  {
    var terms := SearchTerms(topic, sector, keywords);
    var reply := news(SearchRequest(Query(terms), from, n));
    EnoughCollected(reply.articles.value, terms, n);
  }
}
