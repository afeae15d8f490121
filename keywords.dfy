/**
 * Keyword extraction from a topic title and the search terms of the news
 * search: `extract_keywords` and the first lines of `search_recent_articles`.
 */
module Keywords {
  import opened Strings

  /** The fixed French stopword set of `extract_keywords`. */
  const StopWords: set<string> := {
    "le", "la", "les", "un", "une", "des", "de", "du", "à", "en", "et",
    "dans", "pour", "par", "sur", "qui", "que", "quoi", "dont", "comment"
  }

  /** The search takes at most this many keywords from the topic title. */
  const MaxTitleKeywords: nat := 3

  /** A lower-cased token worth searching for: not a stopword and longer than two characters. */
  predicate IsSignificant(w: string) {
    w !in StopWords && |w| > 2
  }

  /**
   * `a` is a subsequence of `b`: its elements occur in `b` in the same order.
   * Matching each element of `a` with its earliest possible position in `b`
   * decides the relation.
   */
  predicate IsSubsequence<T(==)>(a: seq<T>, b: seq<T>)
    decreases |b|
  {
    a == [] || (b != [] && if a[0] == b[0] then IsSubsequence(a[1..], b[1..]) else IsSubsequence(a, b[1..]))
  }

  lemma {:induction false} PrefixIsSubsequence(a: seq<string>, b: seq<string>, k: nat)
    requires IsSubsequence(a, b) && k <= |a|
    ensures IsSubsequence(a[..k], b)
    decreases |b|
  {
    if k > 0 {
      if a[0] == b[0] {
        PrefixIsSubsequence(a[1..], b[1..], k - 1);
        assert a[..k][1..] == a[1..][..k - 1];
      } else {
        PrefixIsSubsequence(a, b[1..], k);
      }
    }
  }

  /**
   * The comprehension that keeps the significant words, in their order:
   * every occurrence of a significant word is kept, repeats included, and
   * nothing else.
   */
  function Significant(ws: seq<string>): (r: seq<string>)
    ensures |r| <= |ws|
    ensures forall w :: w in r <==> w in ws && IsSignificant(w)
    ensures forall w :: multiset(r)[w] == if IsSignificant(w) then multiset(ws)[w] else 0
    ensures IsSubsequence(r, ws)
    decreases |ws|
  {
    if ws == [] then []
    else
      var rest := Significant(ws[1..]);
      assert ws == [ws[0]] + ws[1..];
      assert multiset(ws) == multiset{ws[0]} + multiset(ws[1..]);
      assert forall w :: w in ws <==> w == ws[0] || w in ws[1..];
      if IsSignificant(ws[0]) then [ws[0]] + rest else rest
  }

  /**
   * `extract_keywords(title, max_keywords)`: the first `maxKeywords`
   * significant whitespace tokens of the lower-cased title, in title order.
   */
  function ExtractKeywords(title: string, maxKeywords: nat): (r: seq<string>)
    ensures |r| <= maxKeywords
    ensures |r| <= |Significant(Words(Lower(title)))| && r == Significant(Words(Lower(title)))[..|r|]
    ensures |r| == maxKeywords || r == Significant(Words(Lower(title)))
    ensures forall w :: w in r ==> w in Words(Lower(title)) && IsSignificant(w)
    ensures IsSubsequence(r, Words(Lower(title)))
    ensures |r| < maxKeywords ==> forall w :: w in Words(Lower(title)) && IsSignificant(w) ==> w in r
  {
    var all := Significant(Words(Lower(title)));
    if |all| <= maxKeywords then all
    else
      PrefixIsSubsequence(all, Words(Lower(title)), maxKeywords);
      all[..maxKeywords]
  }

  /** Every piece trimmed, in order: `[kw.strip() for kw in pieces]`. */
  function StripAll(pieces: seq<string>): (r: seq<string>)
    ensures |r| == |pieces|
    ensures forall i :: 0 <= i < |pieces| ==> r[i] == Strip(pieces[i])
  {
    seq(|pieces|, i requires 0 <= i < |pieces| => Strip(pieces[i]))
  }

  /** `[kw.strip() for kw in pieces if kw.strip()]`. */
  function StrippedNonEmpty(pieces: seq<string>): seq<string>
    decreases |pieces|
  {
    if pieces == [] then []
    else if Strip(pieces[0]) != "" then [Strip(pieces[0])] + StrippedNonEmpty(pieces[1..])
    else StrippedNonEmpty(pieces[1..])
  }

  /** The comprehension keeps exactly the non-empty trimmed pieces. */
  lemma {:induction false} StrippedNonEmptyMembers(pieces: seq<string>)
    ensures forall t :: t in StrippedNonEmpty(pieces) <==> t != "" && t in StripAll(pieces)
    decreases |pieces|
  {
    if pieces != [] {
      StrippedNonEmptyMembers(pieces[1..]);
      assert StripAll(pieces) == [Strip(pieces[0])] + StripAll(pieces[1..]);
    }
  }

  /** The comma-separated keywords of the first stage, each trimmed, the empty ones dropped. */
  function KeywordTerms(keywords: string): (r: seq<string>)
    ensures forall t :: t in r <==> t != "" && t in StripAll(Split(keywords, ','))
    ensures forall i :: 0 <= i < |r| ==> r[i] != "" && IsStripped(r[i]) && ',' !in r[i]
  {
    var pieces := Split(keywords, ',');
    var all := StripAll(pieces);
    var r := StrippedNonEmpty(pieces);
    StrippedNonEmptyMembers(pieces);
    SplitExcludes(keywords, ',');
    forall i | 0 <= i < |r|
      ensures r[i] != "" && IsStripped(r[i]) && ',' !in r[i]
    {
      assert r[i] in all;
      var k :| 0 <= k < |all| && all[k] == r[i];
      StripExcludes(pieces[k], ',');
    }
    r
  }

  /**
   * The list `search_terms`: the title keywords, then the sector, then the
   * keyword terms. Every one of them must occur in a real article.
   */
  function SearchTerms(topic: string, sector: string, keywords: string): (r: seq<string>)
    ensures var kw := ExtractKeywords(topic, MaxTitleKeywords);
      |kw| < |r| && r[..|kw|] == kw && r[|kw|] == sector && r[|kw| + 1..] == KeywordTerms(keywords)
  {
    var kw := ExtractKeywords(topic, MaxTitleKeywords);
    var r := kw + [sector] + KeywordTerms(keywords);
    assert r[|kw| + 1..] == KeywordTerms(keywords);
    r
  }

  predicate Distinct(s: seq<string>) {
    forall i, j :: 0 <= i < j < |s| ==> s[i] != s[j]
  }

  lemma {:induction false} SetOfSequenceSize(s: seq<string>)
    ensures |set t | t in s| <= |s|
    ensures |set t | t in s| == |s| <==> Distinct(s)
    decreases |s|
  {
    if s != [] {
      var rest := s[1..];
      SetOfSequenceSize(rest);
      var all, tail := set t | t in s, set t | t in rest;
      assert all == tail + {s[0]};
      if s[0] in rest {
        assert all == tail;
        var j :| 0 <= j < |rest| && rest[j] == s[0];
        assert s[j + 1] == s[0];
      } else {
        assert |all| == |tail| + 1;
        if Distinct(rest) {
          forall i, j | 0 <= i < j < |s|
            ensures s[i] != s[j]
          {
            if i == 0 {
              assert s[j] == rest[j - 1];
            } else {
              assert s[i] == rest[i - 1] && s[j] == rest[j - 1];
            }
          }
        } else {
          var i, j :| 0 <= i < j < |rest| && rest[i] == rest[j];
          assert s[i + 1] == s[j + 1];
        }
      }
    }
  }

  /**
   * The terms of `' '.join(set(search_terms))`. The join order of a Python
   * set is unspecified, so the query is the set itself: every term once.
   */
  function Query(terms: seq<string>): (q: set<string>)
    ensures forall t :: t in q <==> t in terms
    ensures |q| <= |terms|
    ensures |q| == |terms| <==> Distinct(terms)
  {
    SetOfSequenceSize(terms);
    set t | t in terms
  }

  /** A sector that is also one of the keywords is sent to the news index once. */
  lemma SectorAmongKeywordsIsDeduplicated(topic: string, sector: string, keywords: string)
    requires sector in KeywordTerms(keywords)
    ensures |Query(SearchTerms(topic, sector, keywords))| < |SearchTerms(topic, sector, keywords)|
  {
    var r := SearchTerms(topic, sector, keywords);
    var n := |ExtractKeywords(topic, MaxTitleKeywords)|;
    var k :| 0 <= k < |KeywordTerms(keywords)| && KeywordTerms(keywords)[k] == sector;
    assert r[n + 1 + k] == r[n + 1..][k] == sector == r[n];
    assert !Distinct(r);
  }
}
