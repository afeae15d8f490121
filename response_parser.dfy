/**
 * The parsers that turn the language model's free text into the wizard's
 * data: the five topic ideas, the five editorial angles, and the JSON
 * payload inside a Markdown code fence, each with its fixed fallback.
 */
module ResponseParser {
  import opened Wrappers
  import opened Strings
  import opened Records

  /** Both lists offered to the user hold exactly this many entries. */
  const ListSize: nat := 5

  // ---------------------------------------------------------------- topic ideas

  /** A trimmed line that starts with one of `"1."` to `"5."`. */
  predicate IsNumberedIdea(line: string) {
    |line| >= 2 && '1' <= line[0] <= '5' && line[1] == '.'
  }

  /** The idea a numbered line carries: everything after its first `.`, trimmed. */
  function IdeaOf(line: string): string
    requires IsNumberedIdea(line)
  {
    Strip(line[2..])
  }

  /** The idea is `line.split(".", 1)[1].strip()`: the number is a single digit, so the first `.` is at index 1. */
  lemma IdeaOfSplitsAtFirstDot(line: string)
    requires IsNumberedIdea(line)
    ensures '.' in line && IdeaOf(line) == Strip(AfterFirst(line, '.'))
  {
    assert line[1] == '.' && line[0] != '.';
    assert IndexOf(line, '.') == 1;
  }

  /** The idea one line of the reply contributes: none, or the idea of its trimmed text. */
  function LineIdea(line: string): seq<string> {
    var t := Strip(line);
    if IsNumberedIdea(t) then [IdeaOf(t)] else []
  }

  /** The ideas found in `lines`, in their order: one per trimmed line that is numbered. */
  function IdeaItems(lines: seq<string>): seq<string>
    decreases |lines|
  {
    if lines == [] then [] else IdeaItems(lines[..|lines| - 1]) + LineIdea(lines[|lines| - 1])
  }

  /** One more line adds its idea, if it has one, at the end. */
  lemma IdeaItemsStep(lines: seq<string>, i: nat)
    requires i < |lines|
    ensures IdeaItems(lines[..i + 1]) == IdeaItems(lines[..i]) + LineIdea(lines[i])
  {
    assert lines[..i + 1][..i] == lines[..i];
  }

  /** What fills the slots the reply left empty. */
  function IdeaPlaceholder(sector: string, keywords: string): string {
    "Sujet sur " + sector + " et " + keywords
  }

  /**
   * The first `ListSize` entries of `items` followed by as many copies of
   * `pad` as needed: the list always holds exactly `ListSize` entries.
   */
  function PadTo(items: seq<string>, pad: string): (r: seq<string>)
    ensures |r| == ListSize
    ensures forall i :: 0 <= i < |items| && i < ListSize ==> r[i] == items[i]
    ensures forall i :: |items| <= i < ListSize ==> r[i] == pad
  {
    if |items| >= ListSize then items[..ListSize]
    else items + seq(ListSize - |items|, _ => pad)
  }

  /** The five ideas of a reply: the items of its lines, padded with the placeholder, cut to five. */
  function IdeasList(reply: string, sector: string, keywords: string): (r: seq<string>)
    ensures |r| == ListSize
    ensures forall i :: 0 <= i < |r| ==> r[i] in IdeaItems(Split(reply, '\n')) || r[i] == IdeaPlaceholder(sector, keywords)
  {
    PadTo(IdeaItems(Split(reply, '\n')), IdeaPlaceholder(sector, keywords))
  }

  /** What the padding loop leaves behind, once cut to `ListSize`, is `PadTo`. */
  lemma PaddedPrefix(items: seq<string>, padded: seq<string>, pad: string)
    requires |items| <= |padded| && padded[..|items|] == items
    requires |padded| >= ListSize
    requires |items| < ListSize ==> |padded| == ListSize
    requires forall j :: |items| <= j < |padded| ==> padded[j] == pad
    ensures padded[..ListSize] == PadTo(items, pad)
  {
    var r := PadTo(items, pad);
    forall j | 0 <= j < ListSize
      ensures padded[j] == r[j]
    {
      if j < |items| {
        assert padded[j] == padded[..|items|][j];
      }
    }
  }

  /** A line holds an idea exactly when, trimmed, it is non-empty and numbered. */
  lemma LineIdeaCases(line: string)
    ensures var t := Strip(line);
      LineIdea(line) == if t != "" && IsNumberedIdea(t) then [IdeaOf(t)] else []
  {
  }

  /** The line loop of `generate_topic_ideas`: the idea of every numbered line, in order. */
  method CollectIdeas(lines: seq<string>) returns (ideas: seq<string>)
    ensures ideas == IdeaItems(lines)
  {
    ideas := [];
    var i := 0;
    assert lines[..0] == [];
    while i < |lines|
      invariant 0 <= i <= |lines|
      invariant ideas == IdeaItems(lines[..i])
    {
      var line := Strip(lines[i]);
      IdeaItemsStep(lines, i);
      LineIdeaCases(lines[i]);
      if line != "" && IsNumberedIdea(line) {
        ideas := ideas + [IdeaOf(line)];
      }
      i := i + 1;
    }
    assert lines[..i] == lines;
  }

  /**
   * `generate_topic_ideas` once the reply is in: the ideas of its lines,
   * padded by a `while` loop, the first five kept.
   */
  method TopicIdeas(reply: string, sector: string, keywords: string) returns (ideas: seq<string>)
    ensures ideas == IdeasList(reply, sector, keywords)
  {
    ideas := CollectIdeas(Split(reply, '\n'));
    ghost var items := ideas;
    var pad := IdeaPlaceholder(sector, keywords);
    while |ideas| < ListSize
      invariant |items| <= |ideas| && ideas[..|items|] == items
      invariant |items| < ListSize ==> |ideas| <= ListSize
      invariant forall j :: |items| <= j < |ideas| ==> ideas[j] == pad
      decreases ListSize - |ideas|
    {
      ideas := ideas + [pad];
    }
    PaddedPrefix(items, ideas, pad);
    ideas := ideas[..ListSize];
  }

  /** The line the model is asked to write for the `k`-th idea, `k` from 1 to 5. */
  function NumberedLine(k: nat, title: string): string
    requires 1 <= k <= ListSize
  {
    [DigitChar(k)] + ". " + title
  }

  /** The line written for a title contributes exactly that title. */
  lemma NumberedLineIdea(k: nat, title: string)
    requires 1 <= k <= ListSize
    requires title != "" && IsStripped(title)
    ensures LineIdea(NumberedLine(k, title)) == [title]
  {
    NumberedLineIsStripped(k, title);
    IdeaOfNumberedLine(k, title);
  }

  lemma NumberedLineIsStripped(k: nat, title: string)
    requires 1 <= k <= ListSize
    requires title != "" && IsStripped(title)
    ensures Strip(NumberedLine(k, title)) == NumberedLine(k, title)
  {
    var line := NumberedLine(k, title);
    assert IsStripped(line);
    StripStripped(line);
  }

  lemma IdeaOfNumberedLine(k: nat, title: string)
    requires 1 <= k <= ListSize
    requires title != "" && IsStripped(title)
    ensures IsNumberedIdea(NumberedLine(k, title))
    ensures IdeaOf(NumberedLine(k, title)) == title
  {
    var line := NumberedLine(k, title);
    assert line[2..] == " " + title;
    StripPadded(" ", title, "");
    assert " " + title + "" == " " + title;
  }

  /** The numbered list `1. t1`, `2. t2`, ... of the given titles. */
  function NumberedList(titles: seq<string>): (lines: seq<string>)
    requires |titles| <= ListSize
    ensures |lines| == |titles|
  {
    seq(|titles|, i requires 0 <= i < |titles| => NumberedLine(i + 1, titles[i]))
  }

  lemma {:induction false} IdeaItemsOfNumberedList(titles: seq<string>)
    requires |titles| <= ListSize
    requires forall i :: 0 <= i < |titles| ==> titles[i] != "" && IsStripped(titles[i])
    ensures IdeaItems(NumberedList(titles)) == titles
    decreases |titles|
  {
    if titles != [] {
      var n := |titles| - 1;
      assert titles[..n] + [titles[n]] == titles;
      var lines := NumberedList(titles);
      assert lines[..n] == NumberedList(titles[..n]);
      assert lines[n] == NumberedLine(n + 1, titles[n]);
      IdeaItemsOfNumberedList(titles[..n]);
      NumberedLineIdea(n + 1, titles[n]);
      calc {
        IdeaItems(lines);
        IdeaItems(lines[..n]) + LineIdea(lines[n]);
        titles[..n] + [titles[n]];
        titles;
      }
    }
  }

  /**
   * A reply that is exactly the numbered list the prompt asks for yields its
   * titles in order, and the placeholder fills the rest.
   */
  lemma TopicIdeasOfNumberedList(titles: seq<string>, sector: string, keywords: string)
    requires 1 <= |titles| <= ListSize
    requires forall i :: 0 <= i < |titles| ==> titles[i] != "" && IsStripped(titles[i]) && '\n' !in titles[i]
    ensures IdeasList(Join(NumberedList(titles), "\n"), sector, keywords)
         == titles + seq(ListSize - |titles|, _ => IdeaPlaceholder(sector, keywords))
  {
    var lines := NumberedList(titles);
    forall i | 0 <= i < |lines|
      ensures '\n' !in lines[i]
    {
      assert lines[i] == [DigitChar(i + 1)] + ". " + titles[i];
    }
    SplitJoin(lines, '\n');
    IdeaItemsOfNumberedList(titles);
  }

  // ---------------------------------------------------------------- editorial angles

  /** A trimmed line that opens a new angle: its first character is a digit or a dash. */
  predicate StartsAngle(line: string) {
    line != "" && (IsDigit(line[0]) || line[0] == '-')
  }

  /**
   * The angle an opening line names: what follows its first `.` (the whole
   * line without one), trimmed, without a leading dash, and cut at its
   * first `:`, trimmed again.
   */
  function AngleName(line: string): string {
    var dot := IndexOf(line, '.');
    var clean := if dot < |line| then Strip(line[dot + 1..]) else Strip(line);
    var unmarked := if |clean| > 0 && clean[0] == '-' then Strip(clean[1..]) else clean;
    if IndexOf(unmarked, ':') < |unmarked| then Strip(BeforeFirst(unmarked, ':')) else unmarked
  }

  /** An angle name is trimmed and holds no `:`. */
  lemma AngleNameWellFormed(line: string)
    ensures IsStripped(AngleName(line)) && ':' !in AngleName(line)
  {
    var dot := IndexOf(line, '.');
    var clean := if dot < |line| then Strip(line[dot + 1..]) else Strip(line);
    var unmarked := if |clean| > 0 && clean[0] == '-' then Strip(clean[1..]) else clean;
    IndexOfFirst(unmarked, ':');
    if IndexOf(unmarked, ':') < |unmarked| {
      StripExcludes(BeforeFirst(unmarked, ':'), ':');
    }
  }

  /** The angle one line of the reply opens, if it opens a non-empty one. */
  function LineAngle(line: string): seq<string> {
    var t := Strip(line);
    if StartsAngle(t) && AngleName(t) != "" then [AngleName(t)] else []
  }

  /** The non-empty angles the opening lines of `lines` name, in their order. */
  function AngleItems(lines: seq<string>): seq<string>
    decreases |lines|
  {
    if lines == [] then [] else AngleItems(lines[..|lines| - 1]) + LineAngle(lines[|lines| - 1])
  }

  lemma AngleItemsStep(lines: seq<string>, i: nat)
    requires i < |lines|
    ensures AngleItems(lines[..i + 1]) == AngleItems(lines[..i]) + LineAngle(lines[i])
  {
    assert lines[..i + 1][..i] == lines[..i];
  }

  /** A line that does not open an angle (a description under the previous one) changes nothing. */
  lemma ContinuationIgnored(lines: seq<string>, line: string)
    requires !StartsAngle(Strip(line))
    ensures AngleItems(lines + [line]) == AngleItems(lines)
  {
    assert (lines + [line])[..|lines|] == lines;
  }

  /** Every angle found is non-empty, trimmed and free of `:`. */
  lemma {:induction false} AngleItemsWellFormed(lines: seq<string>)
    ensures forall i :: 0 <= i < |AngleItems(lines)| ==>
      AngleItems(lines)[i] != "" && IsStripped(AngleItems(lines)[i]) && ':' !in AngleItems(lines)[i]
    decreases |lines|
  {
    if lines != [] {
      var n := |lines| - 1;
      AngleItemsWellFormed(lines[..n]);
      AngleNameWellFormed(Strip(lines[n]));
      assert AngleItems(lines) == AngleItems(lines[..n]) + LineAngle(lines[n]);
    }
  }

  /** The placeholder for the `k`-th angle: `"Angle k"`. */
  function AnglePlaceholder(k: nat): string {
    "Angle " + NatToString(k)
  }

  /** `["Angle " + str(i + 1) for i in range(lo, hi)]`. */
  function AnglePlaceholders(lo: nat, hi: nat): (r: seq<string>)
    ensures |r| == if lo <= hi then hi - lo else 0
    ensures forall j :: 0 <= j < |r| ==> r[j] == AnglePlaceholder(lo + j + 1)
    decreases hi - lo
  {
    if lo >= hi then [] else [AnglePlaceholder(lo + 1)] + AnglePlaceholders(lo + 1, hi)
  }

  /**
   * The first `ListSize` angles, the missing ones replaced by the
   * placeholder numbered after their position.
   */
  function PadAngles(items: seq<string>): (r: seq<string>)
    ensures |r| == ListSize
    ensures forall i :: 0 <= i < |items| && i < ListSize ==> r[i] == items[i]
    ensures forall i :: |items| <= i < ListSize ==> r[i] == AnglePlaceholder(i + 1)
  {
    var padded := if |items| < ListSize then items + AnglePlaceholders(|items|, ListSize) else items;
    padded[..ListSize]
  }

  /** The five angles of a reply. */
  function AnglesList(reply: string): (r: seq<string>)
    ensures |r| == ListSize
    ensures forall i :: 0 <= i < |r| ==> r[i] in AngleItems(Split(reply, '\n')) || r[i] == AnglePlaceholder(i + 1)
  {
    PadAngles(AngleItems(Split(reply, '\n')))
  }

  /**
   * The line scan of `generate_editorial_angles`: it carries the angle being
   * read and appends it when the next one opens, and once more at the end.
   */
  method ScanAngles(lines: seq<string>) returns (angles: seq<string>)
    ensures angles == AngleItems(lines)
  {
    angles := [];
    var current := "";
    var i := 0;
    assert lines[..0] == [];
    assert Flushed(angles, current) == AngleItems(lines[..0]);
    while i < |lines|
      invariant 0 <= i <= |lines|
      invariant Flushed(angles, current) == AngleItems(lines[..i])
    {
      var line := Strip(lines[i]);
      AngleItemsStep(lines, i);
      if StartsAngle(line) {
        OpensAngle(angles, current, lines[i]);
        if current != "" {
          angles := angles + [current];
        }
        current := AngleName(line);
      } else {
        ContinuesAngle(lines[i]);
      }
      i := i + 1;
    }
    assert lines[..i] == lines;
    if current != "" {
      angles := angles + [current];
    }
  }

  /** `generate_editorial_angles` once the reply is in: the scan, the padding and the cut to five. */
  method EditorialAngles(reply: string) returns (angles: seq<string>)
    ensures angles == AnglesList(reply)
  {
    angles := ScanAngles(Split(reply, '\n'));
    if |angles| < ListSize {
      angles := angles + AnglePlaceholders(|angles|, ListSize);
    }
    angles := angles[..ListSize];
  }

  /** The angles read so far, the one still being read (if any) appended. */
  function Flushed(angles: seq<string>, current: string): seq<string> {
    if current != "" then angles + [current] else angles
  }

  /** A line opening an angle flushes the one being read and starts reading its own. */
  lemma OpensAngle(angles: seq<string>, current: string, line: string)
    requires StartsAngle(Strip(line))
    ensures Flushed(Flushed(angles, current), AngleName(Strip(line))) == Flushed(angles, current) + LineAngle(line)
  {
  }

  /** A line that opens no angle contributes none. */
  lemma ContinuesAngle(line: string)
    requires !StartsAngle(Strip(line))
    ensures LineAngle(line) == []
  {
  }

  /**
   * An entry written as the prompt asks, `"<digit>. <name>: <note>"`, names
   * exactly `<name>`.
   */
  lemma AngleNameOfNumberedEntry(d: char, name: string, note: string)
    requires IsDigit(d)
    requires name != "" && IsStripped(name) && ':' !in name && name[0] != '-'
    requires note != "" && IsStripped(note)
    ensures var line := [d] + ". " + name + ": " + note;
      Strip(line) == line && StartsAngle(line) && AngleName(line) == name
  {
    var line := [d] + ". " + name + ": " + note;
    EntryIsStripped(d, name, note);
    var after := name + ": " + note;
    assert line == [d] + ". " + after;
    EntryAfterDot(d, after);
    NameBeforeColon(name, note);
    StripStripped(name);
  }

  lemma EntryIsStripped(d: char, name: string, note: string)
    requires IsDigit(d)
    requires note != "" && IsStripped(note)
    ensures Strip([d] + ". " + name + ": " + note) == [d] + ". " + name + ": " + note
  {
    var line := [d] + ". " + name + ": " + note;
    assert line[|line| - 1] == note[|note| - 1];
    StripStripped(line);
  }

  lemma EntryAfterDot(d: char, after: string)
    requires IsDigit(d)
    requires after != "" && IsStripped(after)
    ensures var line := [d] + ". " + after;
      IndexOf(line, '.') == 1 && Strip(line[2..]) == after
  {
    var line := [d] + ". " + after;
    assert line[1] == '.' && line[0] != '.';
    assert line[2..] == " " + after + "";
    StripPadded(" ", after, "");
  }

  lemma NameBeforeColon(name: string, note: string)
    requires ':' !in name
    ensures var after := name + ": " + note;
      IndexOf(after, ':') == |name| && after[..|name|] == name
  {
    var after := name + ": " + note;
    assert after == name + [':'] + (" " + note);
    IndexOfAfter(name, ':', " " + note);
  }

  /** The five angles are always non-empty, trimmed and free of `:`. */
  lemma AnglesWellFormed(reply: string)
    ensures forall i :: 0 <= i < ListSize ==>
      AnglesList(reply)[i] != "" && IsStripped(AnglesList(reply)[i]) && ':' !in AnglesList(reply)[i]
  {
    var items := AngleItems(Split(reply, '\n'));
    var r := AnglesList(reply);
    AngleItemsWellFormed(Split(reply, '\n'));
    forall i | 0 <= i < ListSize
      ensures r[i] != "" && IsStripped(r[i]) && ':' !in r[i]
    {
      if i >= |items| {
        PlaceholderWellFormed(i + 1);
      }
    }
  }

  lemma PlaceholderWellFormed(k: nat)
    ensures AnglePlaceholder(k) != "" && IsStripped(AnglePlaceholder(k)) && ':' !in AnglePlaceholder(k)
  {
    var p := AnglePlaceholder(k);
    var digits := NatToString(k);
    assert p[|p| - 1] == digits[|digits| - 1];
    assert forall m :: 6 <= m < |p| ==> p[m] == digits[m - 6];
  }

  // ---------------------------------------------------------------- fenced JSON

  const Backtick: char := '`'
  /** The opening of a Markdown code block tagged as JSON. */
  const JsonFence: string := "```json"
  /** A Markdown code-block delimiter. */
  const Fence: string := "```"

  /** Python's `s.split(pat)[1]` when `pat` occurs in `s`: the text between its first two occurrences. */
  function Between(s: string, pat: string): string
    requires Contains(s, pat)
  {
    Before(After(s, pat), pat)
  }

  /**
   * The text inside the first code block of a reply, trimmed: the block
   * tagged `json` if there is one, else the first untagged block, else
   * nothing (the reply is then used as it is).
   */
  function FencedPayload(reply: string): (r: Option<string>)
    ensures r.Some? <==> Contains(reply, Fence)
    ensures r.Some? ==> IsStripped(r.value)
  {
    JsonFenceIsFence(reply);
    if Contains(reply, JsonFence) then Some(Strip(Before(Between(reply, JsonFence), Fence)))
    else if Contains(reply, Fence) then Some(Strip(Before(Between(reply, Fence), Fence)))
    else None
  }

  /** A reply that holds the tagged fence holds a fence. */
  lemma JsonFenceIsFence(reply: string)
    ensures Contains(reply, JsonFence) ==> Contains(reply, Fence)
  {
    if Contains(reply, JsonFence) {
      var i := Find(reply, JsonFence).value;
      assert reply[i..i + |Fence|] == reply[i..i + |JsonFence|][..|Fence|];
      assert OccursAt(reply, Fence, i);
      FindMissesNothing(reply, Fence);
    }
  }

  /** Text that a following fence closes exactly: it holds no fence and does not end in a backtick. */
  predicate FenceFree(s: string) {
    !Contains(s, Fence) && (s == [] || s[|s| - 1] != Backtick)
  }

  /** After fence-free text, the first fence of `body + "```" + post` is the one right after `body`. */
  lemma FenceAfter(body: string, post: string)
    requires FenceFree(body)
    ensures Find(body + Fence + post, Fence) == Some(|body|)
  {
    var x := body + Fence + post;
    assert x[|body|..|body| + 3] == Fence;
    FindMissesNothing(body, Fence);
    forall j: nat | j < |body|
      ensures !OccursAt(x, Fence, j)
    {
      if j + 3 > |x| {
      } else if j + 3 <= |body| {
        assert x[j..j + 3] == body[j..j + 3];
        assert !OccursAt(body, Fence, j);
      } else {
        assert x[j..j + 3][|body| - 1 - j] == body[|body| - 1];
      }
    }
    FindFirst(x, Fence, |body|);
  }

  /** Without ```` ```json ```` in `pre`, the first tagged fence of `pre + "```json" + rest` is the one after `pre`. */
  lemma JsonFenceAfter(pre: string, rest: string)
    requires !Contains(pre, JsonFence)
    ensures Find(pre + JsonFence + rest, JsonFence) == Some(|pre|)
  {
    var x := pre + JsonFence + rest;
    assert x[|pre|..|pre| + 7] == JsonFence;
    FindMissesNothing(pre, JsonFence);
    forall j: nat | j < |pre|
      ensures !OccursAt(x, JsonFence, j)
    {
      var k := |pre| - j;
      if j + 7 > |x| {
      } else if j + 7 <= |pre| {
        assert x[j..j + 7] == pre[j..j + 7];
        assert !OccursAt(pre, JsonFence, j);
      } else if k <= 3 {
        assert x[j..j + 7][3] == x[|pre| + 3 - k] == JsonFence[3 - k] == Backtick;
      } else {
        assert x[j..j + 7][k] == x[|pre|] == Backtick;
      }
    }
    FindFirst(x, JsonFence, |pre|);
  }

  /**
   * A tagged fence in `body + "```" + post` starts at the closing fence or
   * after it: it holds a fence, and no backtick opens `post`.
   */
  lemma JsonFenceAfterBody(body: string, post: string, i: nat)
    requires FenceFree(body)
    requires post == [] || post[0] != Backtick
    requires OccursAt(body + Fence + post, JsonFence, i)
    ensures i == |body| || i >= |body| + 3
  {
    var x := body + Fence + post;
    FenceAfter(body, post);
    FindMissesNothing(x, Fence);
    assert x[i..i + 3] == x[i..i + 7][..3] == Fence;
    assert OccursAt(x, Fence, i);
    FenceRun(x, i);
    assert |post| > 0 ==> x[|body| + 3] == post[0];
  }

  /** A fence is three backticks. */
  lemma FenceRun(x: string, i: nat)
    requires OccursAt(x, Fence, i)
    ensures forall m :: i <= m < i + 3 ==> x[m] == Backtick
  {
    forall m | i <= m < i + 3
      ensures x[m] == Backtick
    {
      assert x[m] == x[i..i + 3][m - i];
    }
  }

  /**
   * The JSON-tagged case: the text up to the next tagged fence, cut at its
   * first fence, is `body`.
   */
  lemma JsonBlockBody(body: string, post: string)
    requires FenceFree(body)
    requires post == [] || post[0] != Backtick
    ensures Before(Before(body + Fence + post, JsonFence), Fence) == body
  {
    var x := body + Fence + post;
    FenceAfter(body, post);
    match Find(x, JsonFence)
    case None =>
    case Some(i) =>
      JsonFenceAfterBody(body, post, i);
      if i > |body| {
        var cut := post[..i - |body| - 3];
        assert x[..i] == body + Fence + cut;
        FenceAfter(body, cut);
        assert (body + Fence + cut)[..|body|] == body;
      } else {
        assert x[..i] == body;
      }
  }

  /**
   * A reply whose first ```` ```json ```` tag opens a block of fence-free
   * text closed by a fence that no backtick follows yields the block's
   * trimmed body; `pre` may hold inline code and untagged blocks.
   */
  lemma JsonBlockPayload(pre: string, body: string, post: string)
    requires !Contains(pre, JsonFence) && FenceFree(body)
    requires post == [] || post[0] != Backtick
    ensures FencedPayload(pre + JsonFence + body + Fence + post) == Some(Strip(body))
  {
    var t := pre + JsonFence + body + Fence + post;
    assert t == pre + JsonFence + (body + Fence + post);
    JsonFenceAfter(pre, body + Fence + post);
    assert After(t, JsonFence) == body + Fence + post;
    JsonBlockBody(body, post);
  }

  /**
   * A reply without a ```` ```json ```` tag whose first block, opened after
   * fence-free text, holds fence-free text yields the block's trimmed body.
   */
  lemma PlainBlockPayload(pre: string, body: string, post: string)
    requires FenceFree(pre) && FenceFree(body)
    requires !Contains(pre + Fence + body + Fence + post, JsonFence)
    ensures FencedPayload(pre + Fence + body + Fence + post) == Some(Strip(body))
  {
    var t := pre + Fence + body + Fence + post;
    assert t == pre + Fence + (body + Fence + post);
    FenceAfter(pre, body + Fence + post);
    assert Contains(t, Fence) && After(t, Fence) == body + Fence + post;
    FenceAfter(body, post);
    assert Between(t, Fence) == body;
    assert Before(body, Fence) == body;
  }

  /** A reply without a fence holds no code block. */
  lemma UnfencedReply(reply: string)
    requires !Contains(reply, Fence)
    ensures FencedPayload(reply) == None
  {
  }

  // ---------------------------------------------------------------- article outline

  /** The plan `generate_article_outline` returns when the reply cannot be read. */
  function DefaultOutline(topic: string): (o: Outline)
    ensures o.title == "Article sur " + topic
    ensures |o.sections| == 2 && o.sections[0].title != o.sections[1].title
    ensures forall i :: 0 <= i < |o.sections| ==> o.sections[i].subsections == ["Point 1", "Point 2"]
  {
    Outline("Article sur " + topic, "Introduction à définir",
      [Section("Première partie", ["Point 1", "Point 2"]), Section("Deuxième partie", ["Point 1", "Point 2"])],
      "Conclusion à définir")
  }

  /**
   * The plan read from the reply: the fenced payload (or the whole reply,
   * trimmed) given to the JSON reader `parse`; the default plan when it fails.
   */
  function OutlineFromReply(reply: string, topic: string, parse: string -> Option<Outline>): Outline {
    parse(FencedPayload(reply).GetOr(Strip(reply))).GetOr(DefaultOutline(topic))
  }

  /** The plan of a reply with one JSON block is what the block's body parses to. */
  lemma OutlineOfJsonBlock(pre: string, body: string, post: string, topic: string,
                           parse: string -> Option<Outline>)
    requires !Contains(pre, JsonFence) && FenceFree(body)
    requires post == [] || post[0] != Backtick
    ensures parse(Strip(body)).Some? ==>
      OutlineFromReply(pre + JsonFence + body + Fence + post, topic, parse) == parse(Strip(body)).value
    ensures parse(Strip(body)).None? ==>
      OutlineFromReply(pre + JsonFence + body + Fence + post, topic, parse) == DefaultOutline(topic)
  {
    JsonBlockPayload(pre, body, post);
  }

  /** A bare reply is parsed as a whole, trimmed. */
  lemma OutlineOfBareReply(reply: string, topic: string, parse: string -> Option<Outline>)
    requires !Contains(reply, Fence)
    ensures OutlineFromReply(reply, topic, parse) == parse(Strip(reply)).GetOr(DefaultOutline(topic))
  {
    UnfencedReply(reply);
  }

  // ---------------------------------------------------------------- simulated search

  /**
   * The articles `simulate_search_with_openai` reads from the reply: the
   * fenced payload (or the reply as it is, untrimmed) given to `parse`;
   * none when it fails.
   */
  function SimulatedArticles(reply: string, parse: string -> Option<seq<Article>>): seq<Article> {
    parse(FencedPayload(reply).GetOr(reply)).GetOr([])
  }

  /** A reply with one JSON block yields what its body parses to, and nothing when that fails. */
  lemma SimulatedArticlesOfJsonBlock(pre: string, body: string, post: string,
                                     parse: string -> Option<seq<Article>>)
    requires !Contains(pre, JsonFence) && FenceFree(body)
    requires post == [] || post[0] != Backtick
    ensures SimulatedArticles(pre + JsonFence + body + Fence + post, parse) == parse(Strip(body)).GetOr([])
  {
    JsonBlockPayload(pre, body, post);
  }

  /** Unlike the plan, a bare reply is parsed untrimmed. */
  lemma SimulatedArticlesOfBareReply(reply: string, parse: string -> Option<seq<Article>>)
    requires !Contains(reply, Fence)
    ensures SimulatedArticles(reply, parse) == parse(reply).GetOr([])
  {
    UnfencedReply(reply);
  }
}
