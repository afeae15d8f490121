/**
 * The few Python `str` builtins the wizard relies on, over Dafny strings:
 * `isspace`, `isdigit`, `lower`, `strip`, `split()`, `split(sep)`,
 * `split(sep, 1)`, `sep.join`, the `in` substring test, slicing and `str(n)`.
 */
module Strings {
  import opened Wrappers

  /** Python's `str.isspace()`: exactly the characters `split()` and `strip()` treat as whitespace. */
  predicate IsSpace(c: char) {
    || c == ' '
    || ('\t' <= c <= '\r')
    || ('\U{1C}' <= c <= '\U{1F}')
    || c == '\U{85}' || c == '\U{A0}' || c == '\U{1680}'
    || ('\U{2000}' <= c <= '\U{200A}')
    || c == '\U{2028}' || c == '\U{2029}' || c == '\U{202F}' || c == '\U{205F}' || c == '\U{3000}'
  }

  /** `str.isdigit()` restricted to the ASCII digits. */
  predicate IsDigit(c: char) {
    '0' <= c <= '9'
  }

  /** `str.lower()` on ASCII and Latin-1 capitals (the French accented capitals included). */
  function LowerChar(c: char): char {
    if 'A' <= c <= 'Z' || ('\U{C0}' <= c <= '\U{DE}' && c != '\U{D7}') then
      (c as int + 32) as char
    else
      c
  }

  function Lower(s: string): string {
    seq(|s|, i requires 0 <= i < |s| => LowerChar(s[i]))
  }

  /** `s.lower()` leaves no ASCII capital, and keeps every character that is not a capital. */
  lemma LowerCases(s: string)
    ensures |Lower(s)| == |s|
    ensures forall i :: 0 <= i < |s| ==> !('A' <= Lower(s)[i] <= 'Z')
    ensures forall i :: 0 <= i < |s| && !('A' <= s[i] <= 'Z') && !('\U{C0}' <= s[i] <= '\U{DE}') ==> Lower(s)[i] == s[i]
  {
  }

  // ---------------------------------------------------------------- strip

  /** The first index from `i` on that does not hold whitespace (`|s|` if there is none). */
  function SkipSpaces(s: string, i: nat): (k: nat)
    requires i <= |s|
    ensures i <= k <= |s|
    ensures k < |s| ==> !IsSpace(s[k])
    decreases |s| - i
  {
    if i < |s| && IsSpace(s[i]) then SkipSpaces(s, i + 1) else i
  }

  /** Going down from `j`, the end of the text once the whitespace before `j` is dropped (never below `lo`). */
  function BackSpaces(s: string, lo: nat, j: nat): (k: nat)
    requires lo <= j <= |s|
    ensures lo <= k <= j
    ensures k > lo ==> !IsSpace(s[k - 1])
    decreases j
  {
    if j > lo && IsSpace(s[j - 1]) then BackSpaces(s, lo, j - 1) else j
  }

  /** Neither end of `s` is whitespace. */
  predicate IsStripped(s: string) {
    s == [] || (!IsSpace(s[0]) && !IsSpace(s[|s| - 1]))
  }

  /** Python's `s.strip()`: `s` without its leading and trailing whitespace. */
  function Strip(s: string): (r: string)
    ensures IsStripped(r)
    ensures |r| <= |s|
  {
    var i := SkipSpaces(s, 0);
    s[i..BackSpaces(s, i, |s|)]
  }

  /** `strip()` only removes characters: one absent from `s` is absent from `s.strip()`. */
  lemma StripExcludes(s: string, c: char)
    requires c !in s
    ensures c !in Strip(s)
  {
    var i := SkipSpaces(s, 0);
    var r := s[i..BackSpaces(s, i, |s|)];
    assert forall k :: 0 <= k < |r| ==> r[k] == s[i + k];
  }

  predicate AllSpace(s: string) {
    forall i :: 0 <= i < |s| ==> IsSpace(s[i])
  }

  lemma {:induction false} SkipSpacesTo(s: string, i: nat, k: nat)
    requires i <= k <= |s|
    requires forall m :: i <= m < k ==> IsSpace(s[m])
    requires k == |s| || !IsSpace(s[k])
    ensures SkipSpaces(s, i) == k
    decreases k - i
  {
    if i < k {
      SkipSpacesTo(s, i + 1, k);
    }
  }

  lemma {:induction false} BackSpacesTo(s: string, lo: nat, j: nat, k: nat)
    requires lo <= k <= j <= |s|
    requires forall m :: k <= m < j ==> IsSpace(s[m])
    requires k == lo || !IsSpace(s[k - 1])
    ensures BackSpaces(s, lo, j) == k
    decreases j - k
  {
    if k < j {
      BackSpacesTo(s, lo, j - 1, k);
    }
  }

  lemma SkipLeading(pre: string, rest: string)
    requires AllSpace(pre)
    requires rest == [] || !IsSpace(rest[0])
    ensures SkipSpaces(pre + rest, 0) == |pre|
  {
    var s := pre + rest;
    assert forall m :: 0 <= m < |pre| ==> s[m] == pre[m];
    if rest != [] {
      assert s[|pre|] == rest[0];
    }
    SkipSpacesTo(s, 0, |pre|);
  }

  lemma BackTrailing(front: string, post: string, lo: nat)
    requires AllSpace(post)
    requires lo <= |front|
    requires |front| == lo || !IsSpace(front[|front| - 1])
    ensures BackSpaces(front + post, lo, |front + post|) == |front|
  {
    var s := front + post;
    assert forall m :: |front| <= m < |s| ==> s[m] == post[m - |front|];
    if |front| > lo {
      assert s[|front| - 1] == front[|front| - 1];
    }
    BackSpacesTo(s, lo, |s|, |front|);
  }

  /** `strip()` removes exactly the whitespace padding around a stripped core. */
  lemma StripPadded(pre: string, core: string, post: string)
    requires AllSpace(pre) && AllSpace(post) && IsStripped(core)
    ensures Strip(pre + core + post) == core
  {
    var s := pre + core + post;
    if core == [] {
      var spaces := pre + post;
      assert AllSpace(spaces) by {
        assert forall m :: 0 <= m < |pre| ==> spaces[m] == pre[m];
        assert forall m :: |pre| <= m < |spaces| ==> spaces[m] == post[m - |pre|];
      }
      assert s == spaces + [];
      SkipLeading(spaces, []);
    } else {
      assert s == pre + (core + post);
      SkipLeading(pre, core + post);
      assert s == (pre + core) + post;
      BackTrailing(pre + core, post, |pre|);
      assert s[|pre|..|pre| + |core|] == core;
    }
  }

  /** `strip()` leaves a stripped string alone. */
  lemma StripStripped(s: string)
    requires IsStripped(s)
    ensures Strip(s) == s
  {
    StripPadded([], s, []);
    assert [] + s + [] == s;
  }

  // ---------------------------------------------------------------- split()

  /** Length of the run of non-whitespace characters at the start of `s`. */
  function TokenEnd(s: string): (k: nat)
    ensures k <= |s|
    ensures forall i :: 0 <= i < k ==> !IsSpace(s[i])
    ensures k < |s| ==> IsSpace(s[k])
    decreases |s|
  {
    if s == [] || IsSpace(s[0]) then 0 else 1 + TokenEnd(s[1..])
  }

  predicate IsWord(w: string) {
    w != [] && forall i :: 0 <= i < |w| ==> !IsSpace(w[i])
  }

  /** Python's `s.split()`: the maximal runs of non-whitespace characters, in order. */
  function Words(s: string): (r: seq<string>)
    ensures forall i :: 0 <= i < |r| ==> IsWord(r[i])
    decreases |s|
  {
    if s == [] then []
    else if IsSpace(s[0]) then Words(s[1..])
    else
      var k := TokenEnd(s);
      [s[..k]] + Words(s[k..])
  }

  /** Python's `sep.join(parts)`. */
  function Join(parts: seq<string>, sep: string): string
    decreases |parts|
  {
    if |parts| == 0 then ""
    else if |parts| == 1 then parts[0]
    else parts[0] + sep + Join(parts[1..], sep)
  }

  lemma {:induction false} WordsAfterWord(w: string, tail: string)
    requires IsWord(w)
    requires tail == [] || IsSpace(tail[0])
    ensures Words(w + tail) == [w] + Words(tail)
  {
    var s := w + tail;
    assert s[..|w|] == w && s[|w|..] == tail;
    TokenEndOf(w, tail);
  }

  lemma {:induction false} TokenEndOf(w: string, tail: string)
    requires forall i :: 0 <= i < |w| ==> !IsSpace(w[i])
    requires tail == [] || IsSpace(tail[0])
    ensures TokenEnd(w + tail) == |w|
    decreases |w|
  {
    if w == [] {
      assert w + tail == tail;
    } else {
      assert (w + tail)[1..] == w[1..] + tail;
      TokenEndOf(w[1..], tail);
    }
  }

  /** Joining words with single spaces and splitting again gives the words back. */
  lemma {:induction false} WordsOfJoin(ws: seq<string>)
    requires forall i :: 0 <= i < |ws| ==> IsWord(ws[i])
    ensures Words(Join(ws, " ")) == ws
    decreases |ws|
  {
    if |ws| == 0 {
    } else if |ws| == 1 {
      WordsAfterWord(ws[0], []);
      assert ws[0] + [] == ws[0];
    } else {
      var rest := Join(ws[1..], " ");
      assert Join(ws, " ") == ws[0] + (" " + rest);
      WordsAfterWord(ws[0], " " + rest);
      assert (" " + rest)[1..] == rest;
      WordsOfJoin(ws[1..]);
      assert [ws[0]] + ws[1..] == ws;
    }
  }

  // ---------------------------------------------------------------- split(sep)

  /** Index of the first `c` in `s`, or `|s|` when there is none. */
  function IndexOf(s: string, c: char): (i: nat)
    ensures i <= |s|
    ensures i < |s| ==> s[i] == c
    decreases |s|
  {
    if s == [] || s[0] == c then 0 else 1 + IndexOf(s[1..], c)
  }

  /** Nothing before the index `IndexOf` finds is `c`: it is the first occurrence. */
  lemma {:induction false} IndexOfFirst(s: string, c: char)
    ensures forall k :: 0 <= k < IndexOf(s, c) ==> s[k] != c
    decreases |s|
  {
    if s != [] && s[0] != c {
      IndexOfFirst(s[1..], c);
    }
  }

  /** Python's `s.split(sep)` for a one-character separator. */
  function Split(s: string, sep: char): (r: seq<string>)
    ensures |r| >= 1
    decreases |s|
  {
    var i := IndexOf(s, sep);
    if i == |s| then [s] else [s[..i]] + Split(s[i + 1..], sep)
  }

  /** No piece of `s.split(sep)` holds the separator. */
  lemma {:induction false} SplitExcludes(s: string, sep: char)
    ensures forall i :: 0 <= i < |Split(s, sep)| ==> sep !in Split(s, sep)[i]
    decreases |s|
  {
    var i := IndexOf(s, sep);
    IndexOfFirst(s, sep);
    if i < |s| {
      SplitExcludes(s[i + 1..], sep);
      assert Split(s, sep) == [s[..i]] + Split(s[i + 1..], sep);
    }
  }

  /** `sep.join(s.split(sep)) == s`. */
  lemma {:induction false} JoinSplit(s: string, sep: char)
    ensures Join(Split(s, sep), [sep]) == s
    decreases |s|
  {
    var i := IndexOf(s, sep);
    if i < |s| {
      var head, tail := s[..i], s[i + 1..];
      var rest := Split(tail, sep);
      assert Split(s, sep) == [head] + rest;
      JoinSplit(tail, sep);
      calc {
        Join(Split(s, sep), [sep]);
        head + [sep] + Join(rest, [sep]);
        head + [sep] + tail;
        { assert s[i] == sep; }
        s;
      }
    } else {
      assert Split(s, sep) == [s];
    }
  }

  /** `sep.join(parts).split(sep) == parts` when no part holds the separator. */
  lemma {:induction false} SplitJoin(parts: seq<string>, sep: char)
    requires |parts| >= 1
    requires forall i :: 0 <= i < |parts| ==> sep !in parts[i]
    ensures Split(Join(parts, [sep]), sep) == parts
    decreases |parts|
  {
    var p := parts[0];
    if |parts| == 1 {
      IndexOfAbsent(p, sep);
    } else {
      var rest := Join(parts[1..], [sep]);
      var s := p + [sep] + rest;
      assert Join(parts, [sep]) == s;
      IndexOfAfter(p, sep, rest);
      assert s[..|p|] == p && s[|p| + 1..] == rest;
      SplitJoin(parts[1..], sep);
      assert [p] + parts[1..] == parts;
    }
  }

  lemma {:induction false} IndexOfPresent(s: string, c: char)
    requires c in s
    ensures IndexOf(s, c) < |s|
    decreases |s|
  {
    if s[0] != c {
      assert c in s[1..];
      IndexOfPresent(s[1..], c);
    }
  }

  lemma IndexOfAbsent(s: string, c: char)
    requires c !in s
    ensures IndexOf(s, c) == |s|
  {
  }

  lemma {:induction false} IndexOfAfter(p: string, c: char, rest: string)
    requires c !in p
    ensures IndexOf(p + [c] + rest, c) == |p|
    decreases |p|
  {
    if p != [] {
      assert (p + [c] + rest)[1..] == p[1..] + [c] + rest;
      IndexOfAfter(p[1..], c, rest);
    }
  }

  /** Python's `s.split(c, 1)[0]`: what comes before the first `c` (all of `s` without one). */
  function BeforeFirst(s: string, c: char): (r: string)
    ensures c !in r
    ensures |r| <= |s| && r == s[..|r|]
  {
    IndexOfFirst(s, c);
    s[..IndexOf(s, c)]
  }

  /** Python's `s.split(c, 1)[1]` (and `[-1]`) when `c` occurs in `s`: what follows its first occurrence. */
  function AfterFirst(s: string, c: char): string
    requires c in s
  {
    IndexOfPresent(s, c);
    s[IndexOf(s, c) + 1..]
  }

  // ---------------------------------------------------------------- substring search

  predicate OccursAt(s: string, pat: string, i: nat) {
    i + |pat| <= |s| && s[i..i + |pat|] == pat
  }

  /** The first index at which `pat` occurs in `s` (Python's `s.find(pat)`, with None for -1). */
  function Find(s: string, pat: string): (r: Option<nat>)
    ensures r.Some? ==> OccursAt(s, pat, r.value)
    decreases |s|
  {
    if OccursAt(s, pat, 0) then Some(0)
    else if s == [] then None
    else
      var r := Find(s[1..], pat);
      ShiftOccurrence(s, pat);
      match r
      case None => None
      case Some(k) => Some(k + 1)
  }

  /** `Find` misses no occurrence: none precedes the one it finds, and there is none when it finds nothing. */
  lemma {:induction false} FindMissesNothing(s: string, pat: string)
    ensures Find(s, pat).Some? ==> forall j: nat :: j < Find(s, pat).value ==> !OccursAt(s, pat, j)
    ensures Find(s, pat).None? ==> forall j: nat :: !OccursAt(s, pat, j)
    decreases |s|
  {
    if !OccursAt(s, pat, 0) && s != [] {
      FindMissesNothing(s[1..], pat);
      ShiftOccurrence(s, pat);
      assert forall j: nat :: j > 0 ==> OccursAt(s, pat, j) == OccursAt(s[1..], pat, j - 1);
    }
  }

  lemma ShiftOccurrence(s: string, pat: string)
    requires s != []
    ensures forall j: nat :: OccursAt(s, pat, j + 1) <==> OccursAt(s[1..], pat, j)
  {
    forall j: nat
      ensures OccursAt(s, pat, j + 1) <==> OccursAt(s[1..], pat, j)
    {
      if j + 1 + |pat| <= |s| {
        var a, b := s[j + 1..j + 1 + |pat|], s[1..][j..j + |pat|];
        assert forall k :: 0 <= k < |a| ==> a[k] == b[k];
        assert a == b;
      }
    }
  }

  /** Python's `pat in s`. */
  predicate Contains(s: string, pat: string) {
    Find(s, pat).Some?
  }

  /** `pat in s` holds exactly when `pat` occurs somewhere in `s`. */
  lemma ContainsIffOccurs(s: string, pat: string)
    ensures Contains(s, pat) <==> exists i: nat :: OccursAt(s, pat, i)
  {
    FindMissesNothing(s, pat);
  }

  /** The first occurrence is the one no earlier occurrence precedes. */
  lemma FindFirst(s: string, pat: string, i: nat)
    requires OccursAt(s, pat, i)
    requires forall j: nat :: j < i ==> !OccursAt(s, pat, j)
    ensures Find(s, pat) == Some(i)
  {
    FindMissesNothing(s, pat);
  }

  /** An occurrence of `pat` starts with `pat`'s first character. */
  lemma OccurrenceHead(s: string, pat: string)
    requires pat != []
    ensures forall j: nat :: OccursAt(s, pat, j) ==> s[j] == pat[0]
  {
    assert forall j: nat :: OccursAt(s, pat, j) ==> s[j..j + |pat|][0] == s[j];
  }

  /** A pattern whose first character does not occur in `s` is not found in it. */
  lemma FindAbsentHead(s: string, pat: string)
    requires pat != [] && pat[0] !in s
    ensures Find(s, pat) == None
  {
    assert forall i: nat :: OccursAt(s, pat, i) ==> s[i..i + |pat|][0] == s[i];
  }

  /**
   * When `pat`'s first character does not occur in `pre`, the first
   * occurrence of `pat` in `pre + pat + rest` is the one after `pre`.
   */
  lemma FindAfterPrefix(pre: string, pat: string, rest: string)
    requires pat != [] && pat[0] !in pre
    ensures Find(pre + pat + rest, pat) == Some(|pre|)
  {
    var s := pre + pat + rest;
    assert s[|pre|..|pre| + |pat|] == pat;
    OccurrenceHead(s, pat);
    assert forall j :: 0 <= j < |pre| ==> s[j] == pre[j];
    FindFirst(s, pat, |pre|);
  }

  /** Python's `s.split(pat)[0]`. */
  function Before(s: string, pat: string): string {
    match Find(s, pat)
    case None => s
    case Some(i) => s[..i]
  }

  /** The text after the first occurrence of `pat`: Python's `s.split(pat)` from index 1 on, rejoined. */
  function After(s: string, pat: string): string
    requires Contains(s, pat)
  {
    s[Find(s, pat).value + |pat|..]
  }

  /** Python's `s[:n]`, on a string or a list. */
  function Prefix<T>(s: seq<T>, n: nat): (r: seq<T>)
    ensures |r| == if |s| <= n then |s| else n
    ensures r == s[..|r|]
  {
    if |s| <= n then s else s[..n]
  }

  // ---------------------------------------------------------------- str(n)

  function DigitChar(d: nat): char
    requires d < 10
  {
    ('0' as int + d) as char
  }

  /** Python's `str(n)` for a natural number. */
  function NatToString(n: nat): (s: string)
    ensures |s| >= 1
    ensures forall i :: 0 <= i < |s| ==> IsDigit(s[i])
    decreases n
  {
    if n < 10 then [DigitChar(n)] else NatToString(n / 10) + [DigitChar(n % 10)]
  }

  /** Python's `int(s)` on a string of decimal digits. */
  function ParseNat(s: string): nat
    requires forall i :: 0 <= i < |s| ==> IsDigit(s[i])
    decreases |s|
  {
    if s == [] then 0
    else
      assert IsDigit(s[|s| - 1]);
      10 * ParseNat(s[..|s| - 1]) + (s[|s| - 1] as int - '0' as int)
  }

  /** `int(str(n)) == n`. */
  lemma {:induction false} ParseNatToString(n: nat)
    ensures ParseNat(NatToString(n)) == n
    decreases n
  {
    var s := NatToString(n);
    if n >= 10 {
      ParseNatToString(n / 10);
      assert s[..|s| - 1] == NatToString(n / 10);
    }
  }
}
