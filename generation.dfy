/**
 * What the last stage hands to the language model: the inspiration
 * articles scraped and summarised, the target length, the plan written out
 * as text, and the context of the summaries.
 */
module Generation {
  import opened Wrappers
  import opened Strings
  import opened Records
  import opened Gateway

  /**
   * Downloading an article and extracting its main text (the scraping
   * library): `None` when the download or the extraction fails or raises.
   */
  type Extractor = Text -> Option<string>

  /** The scrape processes this many inspiration articles unless told otherwise. */
  const DefaultMaxArticles: nat := 3

  /** The summary request sees at most this many characters of the article. */
  const SummaryInputLimit: nat := 4000

  // ---------------------------------------------------------------- scraping

  /** The summary request for an article's extracted text. */
  function SummaryCall(content: string): (c: Call)
    ensures c.prompt == SummaryPrompt(Prefix(content, SummaryInputLimit))
    ensures |c.prompt.content| <= SummaryInputLimit && c.prompt.content == content[..|c.prompt.content|]
    ensures c.model == "gpt-4o-mini" && c.maxTokens == 300
  {
    Call(SummaryPrompt(Prefix(content, SummaryInputLimit)), "gpt-4o-mini", 300)
  }

  /**
   * `scrape_and_summarize_article(url)`: the extracted text and its summary,
   * or nothing when there is no text (an empty extraction counts as none).
   */
  function ScrapeAndSummarize(url: Text, extract: Extractor, llm: Completion): (r: Option<Scraped>)
    ensures r.None? <==> extract(url).None? || extract(url).value == ""
    ensures r.Some? ==> r.value.originalContent == extract(url).value
    ensures r.Some? ==> r.value.summary == llm(SummaryCall(extract(url).value))
  {
    match extract(url)
    case None => None
    case Some(content) =>
      if content == "" then None
      else Some(Scraped(content, llm(SummaryCall(content))))
  }

  /** `{**article, **scraped}`: the article, its summary replaced, its full text added. */
  function Merge(a: Article, s: Scraped): (p: ProcessedArticle)
    ensures p.title == a.title && p.url == a.url && p.date == a.date
    ensures p.originalContent == s.originalContent && p.summary == s.summary
  {
    ProcessedArticle(a.title, a.url, a.date, s.originalContent, s.summary)
  }

  /** The merged records of the articles that could be scraped, in their order. */
  function Processed(arts: seq<Article>, extract: Extractor, llm: Completion): seq<ProcessedArticle>
    decreases |arts|
  {
    if arts == [] then []
    else
      var last := arts[|arts| - 1];
      var init := Processed(arts[..|arts| - 1], extract, llm);
      match ScrapeAndSummarize(last.url, extract, llm)
      case None => init
      case Some(s) => init + [Merge(last, s)]
  }

  /** `process_articles_for_generation(recent, maxArticles)`. */
  method ProcessArticlesForGeneration(recent: seq<Article>, maxArticles: nat, extract: Extractor, llm: Completion)
    returns (processed: seq<ProcessedArticle>)
    ensures processed == Processed(Prefix(recent, maxArticles), extract, llm)
  {
    var arts := Prefix(recent, maxArticles);
    processed := [];
    var i := 0;
    assert arts[..0] == [];
    while i < |arts|
      invariant 0 <= i <= |arts|
      invariant processed == Processed(arts[..i], extract, llm)
    {
      var article := arts[i];
      var scraped := ScrapeAndSummarize(article.url, extract, llm);
      if scraped.Some? {
        processed := processed + [Merge(article, scraped.value)];
      }
      assert arts[..i + 1][..i] == arts[..i];
      i := i + 1;
    }
    assert arts[..i] == arts;
  }

  /** Scraping a concatenation processes each part in turn: the order of the articles is kept. */
  lemma {:induction false} ProcessedConcat(a: seq<Article>, b: seq<Article>, extract: Extractor, llm: Completion)
    ensures Processed(a + b, extract, llm) == Processed(a, extract, llm) + Processed(b, extract, llm)
    decreases |b|
  {
    if b == [] {
      assert a + b == a;
    } else {
      var init := b[..|b| - 1];
      ProcessedConcat(a, init, extract, llm);
      assert (a + b)[..|a + b| - 1] == a + init;
      assert (a + b)[|a + b| - 1] == b[|b| - 1];
    }
  }

  /** There are never more records than articles, and no more than `maxArticles`. */
  lemma {:induction false} ProcessedBound(arts: seq<Article>, extract: Extractor, llm: Completion)
    ensures |Processed(arts, extract, llm)| <= |arts|
    decreases |arts|
  {
    if arts != [] {
      ProcessedBound(arts[..|arts| - 1], extract, llm);
    }
  }

  /** When every article can be scraped, each gives its record, in place. */
  lemma {:induction false} ProcessedAllScraped(arts: seq<Article>, extract: Extractor, llm: Completion)
    requires forall i :: 0 <= i < |arts| ==> ScrapeAndSummarize(arts[i].url, extract, llm).Some?
    ensures |Processed(arts, extract, llm)| == |arts|
    ensures forall i :: 0 <= i < |arts| ==>
      Processed(arts, extract, llm)[i] == Merge(arts[i], ScrapeAndSummarize(arts[i].url, extract, llm).value)
    decreases |arts|
  {
    if arts != [] {
      ProcessedAllScraped(arts[..|arts| - 1], extract, llm);
    }
  }

  /** An article that cannot be scraped leaves no record. */
  lemma UnscrapedIsSkipped(arts: seq<Article>, a: Article, extract: Extractor, llm: Completion)
    requires ScrapeAndSummarize(a.url, extract, llm).None?
    ensures Processed(arts + [a], extract, llm) == Processed(arts, extract, llm)
  {
    assert (arts + [a])[..|arts|] == arts;
  }

  // ---------------------------------------------------------------- length

  /** The length labels offered in the parameters stage. */
  const ShortLength: string := "Court (~300 mots)"
  const MediumLength: string := "Moyen (~600 mots)"
  const LongLength: string := "Long (~1200 mots)"

  /** The approximate word count a length label asks for; 600 for an unknown label. */
  function WordCount(length: string): (w: nat)
    ensures length == ShortLength ==> w == 300
    ensures length == MediumLength ==> w == 600
    ensures length == LongLength ==> w == 1200
    ensures length != ShortLength && length != LongLength ==> w == 600
  {
    if length == ShortLength then 300
    else if length == MediumLength then 600
    else if length == LongLength then 1200
    else 600
  }

  // ---------------------------------------------------------------- the plan as text

  /** The lines of a list, each followed by a line break. */
  function Terminated(lines: seq<string>): string
    decreases |lines|
  {
    if lines == [] then "" else lines[0] + "\n" + Terminated(lines[1..])
  }

  /** The bullet lines `"- <sub>\n"` of a section's sub-points. */
  function Bullets(subs: seq<string>): string
    decreases |subs|
  {
    if subs == [] then "" else Bullets(subs[..|subs| - 1]) + "- " + subs[|subs| - 1] + "\n"
  }

  /** The heading line of section number `k`. */
  function Heading(k: nat, title: string): string {
    "Section " + NatToString(k) + ": " + title + "\n"
  }

  /** The text of section number `k`: its heading, its bullets and a blank line. */
  function SectionBlock(k: nat, s: Section): string {
    Heading(k, s.title) + Bullets(s.subsections) + "\n"
  }

  /** The blocks of the sections, numbered from 1. */
  function SectionsText(secs: seq<Section>): string
    decreases |secs|
  {
    if secs == [] then "" else SectionsText(secs[..|secs| - 1]) + SectionBlock(|secs|, secs[|secs| - 1])
  }

  /** The opening of the formatted plan, indented as in the source's triple-quoted string. */
  function OutlineHeader(o: Outline): string {
    "\n" + "    Titre: " + o.title + "\n" + "\n" + "    Introduction: " + o.introduction + "\n" + "\n" + "    "
  }

  /** The plan written out for the article prompt. */
  function OutlineText(o: Outline): string {
    OutlineHeader(o) + SectionsText(o.sections) + "Conclusion: " + o.conclusion
  }

  /** The formatting of `generate_article`: the header, one block per section, the conclusion. */
  method FormatOutline(o: Outline) returns (text: string)
    ensures text == OutlineText(o)
  {
    text := OutlineHeader(o);
    text := AppendSections(text, o.sections);
    text := text + "Conclusion: " + o.conclusion;
  }

  /** The outer loop of the formatting: one numbered block per section, appended to `text`. */
  method AppendSections(text: string, secs: seq<Section>) returns (r: string)
    ensures r == text + SectionsText(secs)
  {
    r := text;
    var i := 0;
    assert secs[..0] == [];
    while i < |secs|
      invariant 0 <= i <= |secs|
      invariant r == text + SectionsText(secs[..i])
    {
      var section := secs[i];
      ghost var prefix := r;
      r := r + Heading(i + 1, section.title);
      r := AppendBullets(r, section.subsections);
      r := r + "\n";
      BlockRegroup(prefix, i + 1, section);
      SectionsTextStep(secs, i);
      Regroup(text, SectionsText(secs[..i]), SectionBlock(i + 1, section));
      i := i + 1;
    }
    assert secs[..i] == secs;
  }

  lemma BlockRegroup(prefix: string, k: nat, s: Section)
    ensures prefix + Heading(k, s.title) + Bullets(s.subsections) + "\n" == prefix + SectionBlock(k, s)
  {
  }

  lemma SectionsTextStep(secs: seq<Section>, i: nat)
    requires i < |secs|
    ensures SectionsText(secs[..i + 1]) == SectionsText(secs[..i]) + SectionBlock(i + 1, secs[i])
  {
    assert secs[..i + 1][..i] == secs[..i];
  }

  lemma Regroup(a: string, b: string, c: string)
    ensures a + b + c == a + (b + c)
  {
  }

  /** The inner loop of the formatting: one bullet line per sub-point, appended to `text`. */
  method AppendBullets(text: string, subs: seq<string>) returns (r: string)
    ensures r == text + Bullets(subs)
  {
    r := text;
    var j := 0;
    assert subs[..0] == [];
    while j < |subs|
      invariant 0 <= j <= |subs|
      invariant r == text + Bullets(subs[..j])
    {
      r := r + "- " + subs[j] + "\n";
      assert subs[..j + 1][..j] == subs[..j];
      j := j + 1;
    }
    assert subs[..j] == subs;
  }

  /** The lines of the bullets. */
  function BulletLines(subs: seq<string>): (r: seq<string>)
    ensures |r| == |subs|
    ensures forall i :: 0 <= i < |subs| ==> r[i] == "- " + subs[i]
  {
    seq(|subs|, i requires 0 <= i < |subs| => "- " + subs[i])
  }

  /** The lines of section number `k`. */
  function BlockLines(k: nat, s: Section): seq<string> {
    ["Section " + NatToString(k) + ": " + s.title] + BulletLines(s.subsections) + [""]
  }

  /** The lines of the sections, numbered from 1. */
  function SectionLines(secs: seq<Section>): seq<string>
    decreases |secs|
  {
    if secs == [] then [] else SectionLines(secs[..|secs| - 1]) + BlockLines(|secs|, secs[|secs| - 1])
  }

  /**
   * The lines of the formatted plan: a blank line, the title, a blank line,
   * the introduction, a blank line, then the sections and the conclusion,
   * the first of them indented.
   */
  function OutlineLines(o: Outline): seq<string> {
    var body := SectionLines(o.sections) + ["Conclusion: " + o.conclusion];
    ["", "    Titre: " + o.title, "", "    Introduction: " + o.introduction, ""]
      + ["    " + body[0]] + body[1..]
  }

  lemma {:induction false} TerminatedConcat(a: seq<string>, b: seq<string>)
    ensures Terminated(a + b) == Terminated(a) + Terminated(b)
    decreases |a|
  {
    if a == [] {
      assert a + b == b;
    } else {
      TerminatedConcat(a[1..], b);
      assert (a + b)[1..] == a[1..] + b;
    }
  }

  lemma {:induction false} TerminatedJoin(a: seq<string>, b: seq<string>)
    requires b != []
    ensures Terminated(a) + Join(b, "\n") == Join(a + b, "\n")
    decreases |a|
  {
    if a == [] {
      assert a + b == b;
    } else {
      TerminatedJoin(a[1..], b);
      assert (a + b)[1..] == a[1..] + b;
    }
  }

  lemma {:induction false} BulletsAreLines(subs: seq<string>)
    ensures Terminated(BulletLines(subs)) == Bullets(subs)
    decreases |subs|
  {
    if subs != [] {
      var init := subs[..|subs| - 1];
      BulletsAreLines(init);
      assert BulletLines(subs) == BulletLines(init) + ["- " + subs[|subs| - 1]];
      TerminatedConcat(BulletLines(init), ["- " + subs[|subs| - 1]]);
    }
  }

  lemma BlockIsLines(k: nat, s: Section)
    ensures Terminated(BlockLines(k, s)) == SectionBlock(k, s)
  {
    var head := "Section " + NatToString(k) + ": " + s.title;
    BulletsAreLines(s.subsections);
    TerminatedConcat([head], BulletLines(s.subsections) + [""]);
    TerminatedConcat(BulletLines(s.subsections), [""]);
    assert [head] + (BulletLines(s.subsections) + [""]) == BlockLines(k, s);
  }

  lemma {:induction false} SectionsAreLines(secs: seq<Section>)
    ensures Terminated(SectionLines(secs)) == SectionsText(secs)
    decreases |secs|
  {
    if secs != [] {
      var init := secs[..|secs| - 1];
      SectionsAreLines(init);
      TerminatedConcat(SectionLines(init), BlockLines(|secs|, secs[|secs| - 1]));
      BlockIsLines(|secs|, secs[|secs| - 1]);
    }
  }

  /** The formatted plan is its lines joined by line breaks. */
  lemma OutlineTextIsJoin(o: Outline)
    ensures OutlineText(o) == Join(OutlineLines(o), "\n")
  {
    var conclusion := "Conclusion: " + o.conclusion;
    var body := SectionLines(o.sections) + [conclusion];
    var head := ["", "    Titre: " + o.title, "", "    Introduction: " + o.introduction, ""];
    BodyIsJoin(o.sections, conclusion);
    HeaderLines(o);
    Assemble(head, body, SectionsText(o.sections), conclusion, OutlineHeader(o));
    assert OutlineLines(o) == head + (["    " + body[0]] + body[1..]);
  }

  /** The sections and the conclusion are their lines joined by line breaks. */
  lemma BodyIsJoin(secs: seq<Section>, conclusion: string)
    ensures Join(SectionLines(secs) + [conclusion], "\n") == SectionsText(secs) + conclusion
  {
    SectionsAreLines(secs);
    TerminatedJoin(SectionLines(secs), [conclusion]);
  }

  lemma Assemble(head: seq<string>, body: seq<string>, sections: string, conclusion: string, header: string)
    requires body != []
    requires Join(body, "\n") == sections + conclusion
    requires Terminated(head) + "    " == header
    ensures header + sections + conclusion == Join(head + (["    " + body[0]] + body[1..]), "\n")
  {
    var indented := ["    " + body[0]] + body[1..];
    JoinIndent(body, "    ", "\n");
    TerminatedJoin(head, indented);
    calc {
      header + sections + conclusion;
      Terminated(head) + "    " + sections + conclusion;
      Terminated(head) + ("    " + (sections + conclusion));
      Terminated(head) + Join(indented, "\n");
    }
  }

  /** Prefixing a joined list prefixes its first element. */
  lemma JoinIndent(parts: seq<string>, p: string, sep: string)
    requires parts != []
    ensures p + Join(parts, sep) == Join([p + parts[0]] + parts[1..], sep)
  {
    var q := [p + parts[0]] + parts[1..];
    assert q[1..] == parts[1..];
    if |parts| > 1 {
      assert p + Join(parts, sep) == (p + parts[0]) + (sep + Join(parts[1..], sep));
    }
  }

  /** The header is the five opening lines, then the indentation of the next. */
  lemma HeaderLines(o: Outline)
    ensures Terminated(["", "    Titre: " + o.title, "", "    Introduction: " + o.introduction, ""]) + "    "
      == OutlineHeader(o)
  {
    var a, b := "    Titre: " + o.title, "    Introduction: " + o.introduction;
    FiveLines(a, b);
    HeaderRegroup(a, b, o);
  }

  lemma FiveLines(a: string, b: string)
    ensures Terminated(["", a, "", b, ""]) == "\n" + (a + "\n" + ("\n" + (b + "\n" + "\n")))
  {
    var t5 := Terminated([""]);
    var t4 := Terminated([b, ""]);
    var t3 := Terminated(["", b, ""]);
    assert t5 == "\n";
    assert t4 == b + "\n" + t5;
    assert t3 == "" + "\n" + t4;
    assert Terminated([a, "", b, ""]) == a + "\n" + t3;
    assert "" + "\n" == "\n";
  }

  lemma HeaderRegroup(a: string, b: string, o: Outline)
    requires a == "    Titre: " + o.title && b == "    Introduction: " + o.introduction
    ensures "\n" + (a + "\n" + ("\n" + (b + "\n" + "\n"))) + "    " == OutlineHeader(o)
  {
  }

  predicate SingleLine(s: string) {
    '\n' !in s
  }

  /** No field of the plan spans more than one line. */
  predicate SingleLineOutline(o: Outline) {
    SingleLine(o.title) && SingleLine(o.introduction) && SingleLine(o.conclusion) &&
    forall i :: 0 <= i < |o.sections| ==>
      SingleLine(o.sections[i].title) &&
      forall j :: 0 <= j < |o.sections[i].subsections| ==> SingleLine(o.sections[i].subsections[j])
  }

  predicate AllSingleLine(lines: seq<string>) {
    forall i :: 0 <= i < |lines| ==> SingleLine(lines[i])
  }

  lemma NumberIsSingleLine(k: nat)
    ensures SingleLine(NatToString(k))
  {
    var s := NatToString(k);
    assert forall i :: 0 <= i < |s| ==> s[i] != '\n';
  }

  lemma PrefixedIsSingleLine(p: string, s: string)
    requires SingleLine(p) && SingleLine(s)
    ensures SingleLine(p + s)
  {
    assert forall i :: 0 <= i < |p + s| ==> (p + s)[i] == if i < |p| then p[i] else s[i - |p|];
  }

  lemma {:induction false} SectionLinesSingle(secs: seq<Section>)
    requires forall i :: 0 <= i < |secs| ==>
      SingleLine(secs[i].title) &&
      forall j :: 0 <= j < |secs[i].subsections| ==> SingleLine(secs[i].subsections[j])
    ensures AllSingleLine(SectionLines(secs))
    decreases |secs|
  {
    if secs != [] {
      var n := |secs|;
      var s := secs[n - 1];
      SectionLinesSingle(secs[..n - 1]);
      NumberIsSingleLine(n);
      PrefixedIsSingleLine("Section ", NatToString(n));
      PrefixedIsSingleLine("Section " + NatToString(n), ": ");
      PrefixedIsSingleLine("Section " + NatToString(n) + ": ", s.title);
      forall j | 0 <= j < |s.subsections|
        ensures SingleLine(BulletLines(s.subsections)[j])
      {
        PrefixedIsSingleLine("- ", s.subsections[j]);
      }
    }
  }

  /**
   * Read back line by line, the formatted plan gives exactly its lines: the
   * title, the introduction, each heading, each sub-point and the conclusion
   * on a line of its own, in the plan's order.
   */
  lemma OutlineTextRoundTrip(o: Outline)
    requires SingleLineOutline(o)
    ensures Split(OutlineText(o), '\n') == OutlineLines(o)
  {
    var body := SectionLines(o.sections) + ["Conclusion: " + o.conclusion];
    SectionLinesSingle(o.sections);
    PrefixedIsSingleLine("Conclusion: ", o.conclusion);
    PrefixedIsSingleLine("    Titre: ", o.title);
    PrefixedIsSingleLine("    Introduction: ", o.introduction);
    PrefixedIsSingleLine("    ", body[0]);
    OutlineTextIsJoin(o);
    SplitJoin(OutlineLines(o), '\n');
  }

  // ---------------------------------------------------------------- context of the summaries

  /** One entry of the context: `"Article <k> Résumé:\n<summary>"`. */
  function ContextEntry(k: nat, p: ProcessedArticle): string {
    "Article " + NatToString(k) + " Résumé:\n" + p.summary
  }

  /** The entries, numbered from `from`. */
  function ContextEntries(ps: seq<ProcessedArticle>, from: nat): (r: seq<string>)
    ensures |r| == |ps|
    ensures forall i :: 0 <= i < |ps| ==> r[i] == ContextEntry(from + i, ps[i])
  {
    seq(|ps|, i requires 0 <= i < |ps| => ContextEntry(from + i, ps[i]))
  }

  /** The context of `generate_article_with_context`: the numbered summaries, separated by a blank line. */
  function ContextText(ps: seq<ProcessedArticle>): string {
    Join(ContextEntries(ps, 1), "\n\n")
  }

  /** The context is empty exactly when there is no article, and otherwise opens with the first entry. */
  lemma ContextOpensWithFirstEntry(ps: seq<ProcessedArticle>)
    ensures ContextText(ps) == "" <==> ps == []
    ensures ps != [] ==> ContextText(ps)[..|ContextEntry(1, ps[0])|] == ContextEntry(1, ps[0])
  {
    if ps != [] {
      var es := ContextEntries(ps, 1);
      if |ps| > 1 {
        assert ContextText(ps) == es[0] + ("\n\n" + Join(es[1..], "\n\n"));
      }
    }
  }

  /** One more article adds a blank line and its entry, numbered next. */
  lemma ContextAppend(ps: seq<ProcessedArticle>, p: ProcessedArticle)
    requires ps != []
    ensures ContextText(ps + [p]) == ContextText(ps) + "\n\n" + ContextEntry(|ps| + 1, p)
  {
    var es := ContextEntries(ps, 1);
    assert ContextEntries(ps + [p], 1) == es + [ContextEntry(|ps| + 1, p)];
    JoinAppend(es, ContextEntry(|ps| + 1, p), "\n\n");
  }

  lemma {:induction false} JoinAppend(parts: seq<string>, x: string, sep: string)
    requires parts != []
    ensures Join(parts + [x], sep) == Join(parts, sep) + sep + x
    decreases |parts|
  {
    if |parts| > 1 {
      JoinAppend(parts[1..], x, sep);
      assert (parts + [x])[1..] == parts[1..] + [x];
    } else {
      assert (parts + [x])[1..] == [x];
    }
  }

  /** The request of `generate_article_with_context`. */
  function ContextArticleCall(topic: string, angle: string, ps: seq<ProcessedArticle>): (c: Call)
    ensures c.prompt == ContextArticlePrompt(topic, angle, ContextText(ps))
    ensures c.model == "gpt-4o-mini" && c.maxTokens == 1500
  {
    Call(ContextArticlePrompt(topic, angle, ContextText(ps)), "gpt-4o-mini", 1500)
  }

  // ---------------------------------------------------------------- the article

  /** The request of `generate_article`: the default model, 2000 tokens. */
  function ArticleCall(o: Outline, topic: string, angle: string, tone: string, length: string, style: string,
                       inspiration: seq<ProcessedArticle>): (c: Call)
    ensures c.prompt == ArticlePrompt(topic, angle, OutlineText(o), inspiration, tone, WordCount(length), style)
    ensures c.model == DefaultModel && c.maxTokens == 2000
  {
    Call(ArticlePrompt(topic, angle, OutlineText(o), inspiration, tone, WordCount(length), style), DefaultModel, 2000)
  }

  /**
   * `generate_article`: at most three of the session's articles scraped and
   * summarised, the plan formatted, and the model's reply returned.
   */
  method GenerateArticle(o: Outline, topic: string, angle: string, tone: string, length: string, style: string,
                         recent: seq<Article>, extract: Extractor, llm: Completion)
    returns (text: string)
    ensures text == llm(ArticleCall(o, topic, angle, tone, length, style,
                                    Processed(Prefix(recent, DefaultMaxArticles), extract, llm)))
  {
    var processed := ProcessArticlesForGeneration(recent, DefaultMaxArticles, extract, llm);
    var formatted := FormatOutline(o);
    text := llm(Call(ArticlePrompt(topic, angle, formatted, processed, tone, WordCount(length), style), DefaultModel, 2000));
  }
}
