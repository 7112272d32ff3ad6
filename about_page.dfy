/** app/about/page.tsx: the About page's fallbacks and its small markdown reader. The page
    body is split into lines; every non-blank trimmed line becomes one block. */
module AboutPage {
  import opened Wrappers
  import opened Strings

  /** The `metadata` of the 'about' page object; `None` when the page or a field is absent. */
  datatype PageMetadata = PageMetadata(heading: Option<string>, subtitle: Option<string>, content: Option<string>)

  /** One piece of a paragraph: bold (`<strong>`) or plain (`<span>`). */
  datatype Segment = Strong(text: string) | Span(text: string)

  datatype Block = H2(text: string) | H3(text: string) | ListItem(text: string) | Paragraph(segments: seq<Segment>)

  datatype Body = Placeholder(message: string) | Prose(blocks: seq<Block>)

  datatype View = View(heading: string, subtitle: string, body: Body)

  const DefaultHeading := "About Curated Commerce"
  const DefaultSubtitle := "Thoughtfully curated, beautifully crafted."
  const ComingSoon := "Page content is coming soon. Add content in your Cosmic dashboard."

  // ---------------------------------------------------------------------------
  // The bold split: `trimmed.split(/(\*\*[^*]+\*\*)/g)`
  // ---------------------------------------------------------------------------

  /** The first index at or after `i` holding '*', or `|s|`. */
  function StarFrom(s: string, i: nat): (q: nat)
    requires i <= |s|
    ensures i <= q <= |s|
    ensures q < |s| ==> s[q] == '*'
    ensures forall k :: i <= k < q ==> s[k] != '*'
    decreases |s| - i
  {
    if i == |s| || s[i] == '*' then i else StarFrom(s, i + 1)
  }

  /** `**`, then one or more characters other than '*', then `**`. */
  predicate IsBoldToken(t: string) {
    && |t| >= 5
    && t[0] == '*' && t[1] == '*' && t[|t| - 2] == '*' && t[|t| - 1] == '*'
    && forall k :: 2 <= k < |t| - 2 ==> t[k] != '*'
  }

  /** A match of `\*\*[^*]+\*\*` starting at `p` whose closing `**` starts at `m`. */
  predicate ClosesAt(s: string, p: int, m: int) {
    && 0 <= p && p + 2 < m && m + 1 < |s|
    && s[p] == '*' && s[p + 1] == '*' && s[m] == '*' && s[m + 1] == '*'
    && forall k :: p + 2 <= k < m ==> s[k] != '*'
  }

  /** Where a match starting at `p` ends, or -1 when none starts there. The run `[^*]+`
      cannot cross a '*', so at most one match starts at `p`. */
  function BoldEnd(s: string, p: nat): (e: int)
    requires p <= |s|
    ensures e == -1 || p < e <= |s|
    ensures e != -1 ==> IsBoldToken(s[p..e]) && ClosesAt(s, p, e - 2)
    ensures e != -1 <==> exists m :: ClosesAt(s, p, m)
  {
    if p + 2 <= |s| && s[p] == '*' && s[p + 1] == '*' then
      var q := StarFrom(s, p + 2);
      RunEndsAtFirstStar(s, p);
      if q > p + 2 && q + 1 < |s| && s[q + 1] == '*' then
        assert ClosesAt(s, p, q);
        TokenAt(s, p, q);
        q + 2
      else -1
    else -1
  }

  /** A match can only close at the first star after its opening `**`. */
  lemma RunEndsAtFirstStar(s: string, p: nat)
    requires p + 2 <= |s|
    ensures forall m :: ClosesAt(s, p, m) ==> m == StarFrom(s, p + 2)
  {
  }

  lemma TokenAt(s: string, p: nat, m: nat)
    requires ClosesAt(s, p, m)
    ensures IsBoldToken(s[p..m + 2])
  {
    var token := s[p..m + 2];
    forall k | 2 <= k < |token| - 2 ensures token[k] != '*' {
      assert token[k] == s[p + k];
    }
  }

  /** The split from a segment begun at `start`, looking for the next match at `p`: the
      text before each match, then the match itself, and the text after the last one. */
  function SplitFrom(s: string, start: nat, p: nat): (parts: seq<string>)
    requires start <= p <= |s|
    ensures |parts| % 2 == 1
    decreases |s| - p
  {
    if p == |s| then [s[start..]]
    else
      var e := BoldEnd(s, p);
      if e == -1 then SplitFrom(s, start, p + 1)
      else [s[start..p]] + ([s[p..e]] + SplitFrom(s, e, e))
  }

  /** Joining the pieces of a split from `start` gives back `s[start..]`. */
  lemma {:induction false} SplitFromConcat(s: string, start: nat, p: nat)
    requires start <= p <= |s|
    ensures Concat(SplitFrom(s, start, p)) == s[start..]
    decreases |s| - p
  {
    if p == |s| {
      assert Concat([s[start..]]) == s[start..] + Concat([]);
    } else {
      var e := BoldEnd(s, p);
      if e == -1 {
        SplitFromConcat(s, start, p + 1);
      } else {
        SplitFromConcat(s, e, e);
        var rest := SplitFrom(s, e, e);
        assert Concat([s[p..e]] + rest) == s[p..e] + Concat(rest);
        assert Concat([s[start..p]] + ([s[p..e]] + rest)) == s[start..p] + Concat([s[p..e]] + rest);
        assert s[start..p] + (s[p..e] + s[e..]) == s[start..];
      }
    }
  }

  /** Every piece at an odd position is a bold token. */
  predicate OddTokens(parts: seq<string>) {
    forall i :: 0 <= i < |parts| && i % 2 == 1 ==> IsBoldToken(parts[i])
  }

  /** The pieces at odd positions of a split are exactly the matched tokens. */
  lemma {:induction false} SplitFromTokens(s: string, start: nat, p: nat)
    requires start <= p <= |s|
    ensures OddTokens(SplitFrom(s, start, p))
    decreases |s| - p
  {
    if p < |s| {
      var e := BoldEnd(s, p);
      if e == -1 {
        SplitFromTokens(s, start, p + 1);
      } else {
        SplitFromTokens(s, e, e);
        var rest := SplitFrom(s, e, e);
        var parts := [s[start..p]] + ([s[p..e]] + rest);
        assert parts == SplitFrom(s, start, p);
        forall i | 0 <= i < |parts| && i % 2 == 1 ensures IsBoldToken(parts[i]) {
          if i == 1 {
            assert parts[i] == s[p..e];
          } else {
            assert parts[i] == rest[i - 2];
            assert (i - 2) % 2 == 1;
          }
        }
      }
    }
  }

  /** `trimmed.split(/(\*\*[^*]+\*\*)/g)`: text and matched tokens alternating, starting
      and ending with text (which may be empty). */
  function SplitBold(s: string): (parts: seq<string>)
    ensures |parts| % 2 == 1
  {
    SplitFrom(s, 0, 0)
  }

  /** Joining the pieces gives back the line, and the odd pieces are the bold tokens. */
  lemma SplitBoldParts(s: string)
    ensures Concat(SplitBold(s)) == s
    ensures OddTokens(SplitBold(s))
  {
    SplitFromConcat(s, 0, 0);
    SplitFromTokens(s, 0, 0);
    assert s[0..] == s;
  }

  /** `part.slice(2, -2)`, which is empty for a part shorter than four. */
  function Inner(part: string): (r: string)
    ensures |part| >= 4 ==> r == part[2..|part| - 2]
    ensures |part| < 4 ==> r == ""
  {
    if |part| >= 4 then part[2..|part| - 2] else ""
  }

  /** The rendering of one piece: bold when it starts and ends with `**`. */
  function ToSegment(part: string): (seg: Segment)
    ensures seg.Strong? <==> StartsWith(part, "**") && EndsWith(part, "**")
    ensures seg.Span? ==> seg.text == part
    ensures seg.Strong? ==> seg.text == Inner(part)
  {
    if StartsWith(part, "**") && EndsWith(part, "**") then Strong(Inner(part)) else Span(part)
  }

  /** Every matched token is rendered bold, showing its non-empty, star-free inside, and
      the token is that inside between `**` and `**`. */
  lemma TokensRenderBold(s: string)
    ensures var parts := SplitBold(s);
      forall i :: 0 <= i < |parts| && i % 2 == 1 ==>
        && ToSegment(parts[i]).Strong?
        && ToSegment(parts[i]).text != ""
        && '*' !in ToSegment(parts[i]).text
        && parts[i] == "**" + ToSegment(parts[i]).text + "**"
  {
    SplitBoldParts(s);
    var parts := SplitBold(s);
    forall i | 0 <= i < |parts| && i % 2 == 1
      ensures ToSegment(parts[i]).Strong?
      ensures '*' !in ToSegment(parts[i]).text
      ensures parts[i] == "**" + ToSegment(parts[i]).text + "**"
    {
      var t := parts[i];
      assert IsBoldToken(t);
      assert t[..2] == "**" && t[|t| - 2..] == "**";
      var inner := t[2..|t| - 2];
      forall k | 0 <= k < |inner| ensures inner[k] != '*' {
        assert inner[k] == t[k + 2];
      }
      assert t == t[..2] + inner + t[|t| - 2..];
    }
  }

  function Segments(parts: seq<string>): (segs: seq<Segment>)
    ensures |segs| == |parts|
    ensures forall i :: 0 <= i < |parts| ==> segs[i] == ToSegment(parts[i])
  {
    if parts == [] then [] else [ToSegment(parts[0])] + Segments(parts[1..])
  }

  // ---------------------------------------------------------------------------
  // The line classifier
  // ---------------------------------------------------------------------------

  /** One trimmed, non-blank line as a block. `replace` removes the first occurrence of
      the prefix, which is the prefix itself. A line starting with "### " does not start
      with "## ", so the two heading levels never overlap. */
  function Classify(t: string): (b: Block)
    ensures b.H2? <==> StartsWith(t, "## ")
    ensures b.H3? <==> StartsWith(t, "### ")
    ensures b.ListItem? <==> StartsWith(t, "- ")
    ensures b.H2? ==> t == "## " + b.text
    ensures b.H3? ==> t == "### " + b.text
    ensures b.ListItem? ==> t == "- " + b.text
    ensures b.Paragraph? ==> b.segments == Segments(SplitBold(t))
  {
    if StartsWith(t, "## ") then
      assert t[2] == ' ' && t[0] == '#';
      assert t == t[..3] + t[3..];
      H2(t[3..])
    else if StartsWith(t, "### ") then
      assert t[0] == '#';
      assert t == t[..4] + t[4..];
      H3(t[4..])
    else if StartsWith(t, "- ") then
      assert t == t[..2] + t[2..];
      ListItem(t[2..])
    else Paragraph(Segments(SplitBold(t)))
  }

  /** The line a block was read from. */
  function LineOf(b: Block, parts: seq<string>): string {
    match b
    case H2(x) => "## " + x
    case H3(x) => "### " + x
    case ListItem(x) => "- " + x
    case Paragraph(_) => Concat(parts)
  }

  /** Every line can be read back from its block: the prefix of a heading or list item
      and the text of a paragraph's pieces make up the line again. */
  lemma ClassifyRoundTrip(t: string)
    ensures LineOf(Classify(t), SplitBold(t)) == t
  {
    SplitBoldParts(t);
  }

  /** The trimmed, non-blank lines in their order. */
  function NonBlankLines(lines: seq<string>): (r: seq<string>)
    ensures |r| <= |lines|
    ensures forall i :: 0 <= i < |r| ==> r[i] != ""
  {
    if lines == [] then []
    else
      var t := Trim(lines[0]);
      var rest := NonBlankLines(lines[1..]);
      if t == "" then rest
      else
        assert forall i :: 1 <= i <= |rest| ==> ([t] + rest)[i] == rest[i - 1];
        [t] + rest
  }

  function ClassifyAll(ts: seq<string>): (blocks: seq<Block>)
    ensures |blocks| == |ts|
    ensures forall i :: 0 <= i < |ts| ==> blocks[i] == Classify(ts[i])
  {
    if ts == [] then [] else [Classify(ts[0])] + ClassifyAll(ts[1..])
  }

  /** `content.split('\n').map(...)`: each line is trimmed; a blank one renders nothing
      and any other renders one block. */
  function Render(lines: seq<string>): seq<Block> {
    if lines == [] then []
    else
      var t := Trim(lines[0]);
      if t == "" then Render(lines[1..]) else [Classify(t)] + Render(lines[1..])
  }

  /** The blocks follow the non-blank lines one to one, in order. */
  lemma {:induction false} RenderFollowsLines(lines: seq<string>)
    ensures Render(lines) == ClassifyAll(NonBlankLines(lines))
  {
    if lines != [] {
      RenderFollowsLines(lines[1..]);
      var t := Trim(lines[0]);
      if t != "" {
        assert ([t] + NonBlankLines(lines[1..]))[1..] == NonBlankLines(lines[1..]);
      }
    }
  }

  /** The About page: fixed defaults for absent fields and the placeholder for an empty
      body. */
  function AboutView(page: Option<PageMetadata>): (v: View)
    ensures v.heading == if page.Some? && page.value.heading.Some? then page.value.heading.value else DefaultHeading
    ensures v.subtitle == if page.Some? && page.value.subtitle.Some? then page.value.subtitle.value else DefaultSubtitle
    ensures v.body.Placeholder? <==> page.None? || page.value.content.None? || page.value.content.value == ""
    ensures v.body.Placeholder? ==> v.body.message == ComingSoon
    ensures v.body.Prose? ==> v.body.blocks == Render(Split(page.value.content.value, '\n'))
  {
    var h := if page.Some? then page.value.heading.GetOr(DefaultHeading) else DefaultHeading;
    var sub := if page.Some? then page.value.subtitle.GetOr(DefaultSubtitle) else DefaultSubtitle;
    var text := if page.Some? then page.value.content.GetOr("") else "";
    if text == "" then View(h, sub, Placeholder(ComingSoon))
    else View(h, sub, Prose(Render(Split(text, '\n'))))
  }

  /** A third-level heading is never read as a second-level one. */
  lemma H3NeverH2(x: string)
    ensures Classify("### " + x) == H3(x)
  {
    var t := "### " + x;
    assert t[..4] == "### ";
    assert t[2] == '#';
    assert t[4..] == x;
  }

  /** A bold word in the middle of a line: text, token, text. */
  lemma BoldInTheMiddle()
    ensures SplitBold("a **b** c") == ["a ", "**b**", " c"]
  {
    var s := "a **b** c";
    assert BoldEnd(s, 0) == -1;
    assert BoldEnd(s, 1) == -1;
    assert StarFrom(s, 5) == 5;
    assert StarFrom(s, 4) == 5;
    assert BoldEnd(s, 2) == 7;
    assert BoldEnd(s, 7) == -1 && BoldEnd(s, 8) == -1;
    assert s[7..9] == " c";
    assert SplitFrom(s, 7, 9) == [" c"];
    assert SplitFrom(s, 7, 7) == [" c"];
    assert s[0..2] == "a " && s[2..7] == "**b**";
    assert SplitFrom(s, 0, 2) == ["a ", "**b**", " c"];
  }
}
