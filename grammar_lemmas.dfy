/** Properties of the Markdown grammar: what each line recogniser accepts, what the
    initialisers compute, how the ordered alternatives resolve, and which tags a parsed
    document can carry. */
module GrammarLemmas {
  import opened Wrappers
  import opened ParseTree
  import opened Grammars
  import Renderer
  import Transform

  // ---------------------------------------------------------------------------------------
  // Runs of characters

  /** A run that is known to end at `j` is the run `Span` finds. */
  lemma SpanExact(s: string, i: nat, j: nat, cls: CharClass)
    requires i <= j <= |s|
    requires forall k :: i <= k < j ==> InClass(s[k], cls)
    requires j < |s| ==> !InClass(s[j], cls)
    ensures Span(s, i, cls) == j
  {
  }

  // ---------------------------------------------------------------------------------------
  // Heading

  /** One to six `#`, a space and a text make a heading line whose level is the number of
      `#` and whose text is the rest of the line. */
  lemma HeadingRoundTrip(level: nat, text: string)
    requires 1 <= level <= 6
    ensures HeadingLine(Hashes(level) + " " + text) == Some((level, text))
  {
    var line := Hashes(level) + " " + text;
    assert forall k :: 0 <= k < level ==> line[k] == Hashes(level)[k];
    SpanExact(line, 0, level, Hash);
    assert line[level + 1..] == text;
  }

  /** A line that starts with seven `#` is no heading: the repetition takes at most six and
      the space must follow them. */
  lemma SevenHashesNoHeading(line: string)
    requires |line| >= 7 && forall k :: 0 <= k < 7 ==> line[k] == '#'
    ensures HeadingLine(line).None?
  {
  }

  /** The number a string of decimal digits denotes. */
  function DecimalValue(digits: string): nat
    requires forall k :: 0 <= k < |digits| ==> '0' <= digits[k] <= '9'
  {
    if digits == [] then 0
    else 10 * DecimalValue(digits[..|digits| - 1]) + (digits[|digits| - 1] as int - '0' as int)
  }

  /** `str(n)` writes `n` in decimal. */
  lemma {:induction false} DecimalRoundTrip(n: nat)
    ensures DecimalValue(DecimalString(n)) == n
  {
    var s := DecimalString(n);
    if n >= 10 {
      DecimalRoundTrip(n / 10);
      assert s[..|s| - 1] == DecimalString(n / 10);
    } else {
      assert s[..0] == [];
    }
  }

  /** The heading tag names the level: two headings of different levels get different tags,
      and a level below 10 gives `h` and its single digit. */
  lemma HeadingTagLevel(level: nat, other: nat)
    ensures HeadingTag(level) == HeadingTag(other) ==> level == other
    ensures level < 10 ==> HeadingTag(level) == ['h', ('0' as int + level) as char]
  {
    if HeadingTag(level) == HeadingTag(other) {
      assert DecimalString(level) == HeadingTag(level)[1..];
      assert DecimalString(other) == HeadingTag(other)[1..];
      DecimalRoundTrip(level);
      DecimalRoundTrip(other);
    }
  }

  // ---------------------------------------------------------------------------------------
  // EmptyLine, QuoteLine and the list item markers

  /** A quote line is a `>` followed by the quote line it keeps. */
  lemma QuoteLineIff(line: string, rest: string)
    ensures QuoteLine(line) == Some(rest) <==> line == ">" + rest
  {
    if line == ">" + rest {
      assert line[1..] == rest;
    }
    if QuoteLine(line) == Some(rest) {
      assert line == [line[0]] + line[1..];
    }
  }

  /** An unordered list item starts with one of its three markers, and its inline elements
      start after the two characters of the marker. */
  lemma UnorderedPrefixIff(line: string)
    ensures UnorderedPrefix(line).Some? <==> |line| >= 2 && line[..2] in UnorderedMarkers
    ensures UnorderedPrefix(line).Some? ==> UnorderedPrefix(line) == Some(2)
  {
    if |line| >= 2 && line[..2] in UnorderedMarkers {
      assert line[..2] == "* " || line[..2] == "- " || line[..2] == "+ ";
      assert line[0..2] == line[..2];
    }
  }

  /** An ordered list item starts with a non-empty run of digits and `. `; its inline
      elements start after them. */
  lemma OrderedPrefixIff(line: string, p: nat)
    ensures OrderedPrefix(line) == Some(p) <==>
      && 3 <= p <= |line|
      && (forall k :: 0 <= k < p - 2 ==> '0' <= line[k] <= '9')
      && line[p - 2..p] == ". "
  {
    if 3 <= p <= |line| && (forall k :: 0 <= k < p - 2 ==> '0' <= line[k] <= '9') && line[p - 2..p] == ". " {
      assert line[p - 2] == '.';
      SpanExact(line, 0, p - 2, Digit);
    }
  }

  // ---------------------------------------------------------------------------------------
  // Inline elements

  /** At most one inline alternative matches at a position, so the order of the inline `OR`
      never has to break a tie. */
  lemma InlineExclusive(s: string, i: nat)
    requires i <= |s|
    ensures MatchBold(s, i).Some? ==>
      MatchItalic(s, i).None? && MatchCode(s, i).None? && MatchSimpleText(s, i).None?
    ensures MatchItalic(s, i).Some? ==> MatchCode(s, i).None? && MatchSimpleText(s, i).None?
    ensures MatchCode(s, i).Some? ==> MatchSimpleText(s, i).None?
  {
    FirstChar(s, i);
    if i < |s| && (s[i] == '*' || s[i] == '`') {
      NoSimpleTextAt(s, i);
    }
    if At(s, i, "**") {
      DoubleStar(s, i);
    }
  }

  /** Bold and Italic start with `*`, InlineCode with a backtick. */
  lemma FirstChar(s: string, i: nat)
    requires i <= |s|
    ensures MatchBold(s, i).Some? || MatchItalic(s, i).Some? ==> i < |s| && s[i] == '*'
    ensures MatchCode(s, i).Some? ==> i < |s| && s[i] == '`'
  {
    if At(s, i, "**") || At(s, i, "*") || At(s, i, "`") {
      assert s[i] == s[i..i + 1][0];
    }
  }

  /** Simple text cannot start at a `*` or a backtick. */
  lemma NoSimpleTextAt(s: string, i: nat)
    requires i < |s| && (s[i] == '*' || s[i] == '`')
    ensures MatchSimpleText(s, i).None?
  {
    SpanExact(s, i, i, Space);
  }

  /** Where `**` starts, Italic finds no text after its `*`. */
  lemma DoubleStar(s: string, i: nat)
    requires i <= |s| && At(s, i, "**")
    ensures MatchItalic(s, i).None?
  {
    assert s[i + 1] == s[i..i + 2][1];
    SpanExact(s, i + 1, i + 1, Emphasis);
  }

  /** A delimited element is recognised with the text between its delimiters, provided the
      text is a run of its class and the closing delimiter does not start with a character
      of that class. */
  lemma DelimitedMatch(open: string, text: string, close: string, rest: string, cls: CharClass, tag: string)
    requires text != [] && forall k :: 0 <= k < |text| ==> InClass(text[k], cls)
    requires close != [] && !InClass(close[0], cls)
    ensures Delimited(open + text + close + rest, 0, open, cls, close, tag)
         == Some((Inline(tag, text), |open| + |text| + |close|))
  {
    var s := open + text + close + rest;
    var j := |open| + |text|;
    assert s[0..|open|] == open;
    assert forall k :: |open| <= k < j ==> s[k] == text[k - |open|];
    assert s[j] == close[0];
    SpanExact(s, |open|, j, cls);
    assert s[j..j + |close|] == close;
    assert s[|open|..j] == text;
  }

  /** `**x**` is one bold element with text `x`: Bold is tried first and Italic does not
      match there. */
  lemma BoldFirst(text: string, rest: string)
    requires text != [] && forall k :: 0 <= k < |text| ==> InClass(text[k], Emphasis)
    ensures var s := "**" + text + "**" + rest;
      && MatchInline(s, 0) == Some((Inline("b", text), |text| + 4))
      && MatchItalic(s, 0).None?
  {
    var s := "**" + text + "**" + rest;
    DelimitedMatch("**", text, "**", rest, Emphasis, "b");
    InlineExclusive(s, 0);
  }

  /** Inline code is recognised with the text between its backticks. */
  lemma CodeMatch(text: string, rest: string)
    requires text != [] && forall k :: 0 <= k < |text| ==> InClass(text[k], Code)
    ensures MatchInline("`" + text + "`" + rest, 0) == Some((Inline("code", text), |text| + 2))
  {
    var s := "`" + text + "`" + rest;
    DelimitedMatch("`", text, "`", rest, Code, "code");
    assert s[0] == '`';
    assert !At(s, 0, "**") && !At(s, 0, "*") by {
      assert s[0..1] == "`";
    }
  }

  /** No inline element starts at a `#` or a `>`. */
  lemma NoInlineAtMarker(s: string, i: nat)
    requires i < |s| && (s[i] == '#' || s[i] == '>')
    ensures MatchInline(s, i).None?
  {
    SpanExact(s, i, i, Space);
    assert !At(s, i, "**") && !At(s, i, "*") && !At(s, i, "`") by {
      assert s[i..i + 1][0] == s[i];
    }
  }

  /** A line that starts like a heading or a quote is never a line of Text. */
  lemma MarkedLineNotText(line: string)
    requires |line| > 0 && (line[0] == '#' || line[0] == '>')
    ensures TextLine(line).None?
  {
    NoInlineAtMarker(line, 0);
  }

  /** An empty line is never a line of Text. */
  lemma EmptyLineNotText(line: string)
    requires IsEmptyLine(line)
    ensures TextLine(line).None?
  {
    if |line| > 0 {
      assert !At(line, 0, "**") && !At(line, 0, "*") && !At(line, 0, "`") by {
        assert line[0..1][0] == line[0] == ' ';
      }
    }
  }

  // ---------------------------------------------------------------------------------------
  // Quote

  /** The text a quote of these lines has: each line contributes its length and one space. */
  function QuoteLength(quoteLines: seq<string>): nat
  {
    if quoteLines == [] then 0 else |quoteLines[0]| + 1 + QuoteLength(quoteLines[1..])
  }

  /** Joining two runs of quote lines one after the other gives the joins side by side. */
  lemma {:induction false} QuoteJoinAppend(a: seq<string>, b: seq<string>)
    ensures QuoteJoin(a + b) == QuoteJoin(a) + QuoteJoin(b)
    decreases |b|
  {
    if b == [] {
      assert a + b == a;
    } else {
      var init := b[..|b| - 1];
      assert (a + b)[..|a + b| - 1] == a + init;
      QuoteJoinAppend(a, init);
    }
  }

  /** The quote text has one space and every line, so its length is the sum, over the lines,
      of their lengths plus one; with at least one line it starts with a space. */
  lemma {:induction false} QuoteJoinLength(quoteLines: seq<string>)
    ensures |QuoteJoin(quoteLines)| == QuoteLength(quoteLines)
    ensures quoteLines != [] ==> QuoteJoin(quoteLines)[0] == ' '
  {
    if quoteLines != [] {
      var first := quoteLines[0];
      QuoteJoinLength(quoteLines[1..]);
      assert quoteLines == [first] + quoteLines[1..];
      QuoteJoinAppend([first], quoteLines[1..]);
      assert [first][..0] == [];
      assert QuoteJoin([first]) == "" + " " + first;
    }
  }

  // ---------------------------------------------------------------------------------------
  // Blocks and the document

  /** A heading line always starts a heading block: Heading is the first alternative. */
  lemma HeadingLineFirst(lines: seq<string>, i: nat)
    requires i < |lines| && HeadingLine(lines[i]).Some?
    ensures MatchBlock(lines, i) == HeadingBlock(lines, i)
    ensures MatchBlock(lines, i).Some? && MatchBlock(lines, i).value.1 == i + 1
  {
  }

  /** A quote line always starts a quote block: it is neither a heading nor an empty line,
      so it reaches the Quote alternative, which matches it. */
  lemma QuoteLineStartsQuote(lines: seq<string>, i: nat)
    requires i < |lines| && QuoteLine(lines[i]).Some?
    ensures MatchBlock(lines, i) == QuoteBlock(lines, i)
    ensures MatchBlock(lines, i).Some? && MatchBlock(lines, i).value.0.tag == Some("quote")
  {
    var line := lines[i];
    SpanExact(line, 0, 0, Hash);
    SpanExact(line, 0, 0, Space);
    assert QuoteRun(lines, i) != [];
  }

  /** No inline element starts at the end of a line. */
  lemma InlinesAtEnd(s: string)
    ensures Inlines(s, |s|) == ([], |s|)
  {
    SpanExact(s, |s|, |s|, Space);
  }

  /** The inline elements of `- a` from its third character: one simple text `a`. */
  lemma ItemTextA()
    ensures Inlines("- a", 2) == ([Inline("text", "a")], 3)
  {
    var s := "- a";
    SpanExact(s, 2, 2, Space);
    SpanExact(s, 3, 3, TextRest);
    assert s[2..3] == "a";
    assert !At(s, 2, "*") && !At(s, 2, "`") by {
      assert s[2..3][0] == 'a';
    }
    var x := Inline("text", "a");
    assert MatchInline(s, 2) == Some((x, 3));
    InlinesAtEnd(s);
    assert [x] + [] == [x];
  }

  /** `- a` as a whole line: one simple text `- a`. */
  lemma LineTextA()
    ensures Inlines("- a", 0) == ([Inline("text", "- a")], 3)
  {
    var s := "- a";
    SpanExact(s, 0, 0, Space);
    SpanExact(s, 1, 3, TextRest);
    assert s[0..3] == s;
    assert !At(s, 0, "*") && !At(s, 0, "`") by {
      assert s[0..1][0] == '-';
    }
    var x := Inline("text", "- a");
    assert MatchInline(s, 0) == Some((x, 3));
    InlinesAtEnd(s);
    assert [x] + [] == [x];
  }

  /** `- a` is an unordered list item, and it is also a line of Text. */
  lemma ItemLineA()
    ensures UnorderedItem("- a") == Some([Inline("text", "a")])
    ensures TextLine("- a") == Some([Inline("text", "- a")])
  {
    UnorderedItemA();
    TextLineA();
  }

  lemma UnorderedItemA()
    ensures UnorderedItem("- a") == Some([Inline("text", "a")])
  {
    var s := "- a";
    UnorderedPrefixIff(s);
    assert s[..2] == "- ";
    ItemTextA();
  }

  lemma TextLineA()
    ensures TextLine("- a") == Some([Inline("text", "- a")])
  {
    LineTextA();
  }

  /** An empty line followed by `- a` is an unordered list of one item. */
  lemma ListA()
    ensures ListBlock(["", "- a"], 0, false)
         == Some((Node(Some("unordered_list"), None, [], map[],
                       [EmptyLineNode, Group(ItemNodes([[Inline("text", "a")]]))]), 2))
  {
    SpanExact("", 0, 0, Space);
    ItemRunA();
  }

  /** The run of unordered items after the empty line is the one item `a`. */
  lemma ItemRunA()
    ensures UnorderedRun(["", "- a"], 1) == [[Inline("text", "a")]]
  {
    ItemLineA();
    var items := UnorderedRun(["", "- a"], 1);
    assert |items| == 1 && items[0] == [Inline("text", "a")];
  }

  /** An empty line followed by `- a` is also a paragraph. */
  lemma ParagraphA()
    ensures ParagraphBlock(["", "- a"], 0).Some?
  {
    SpanExact("", 0, 0, Space);
    ItemLineA();
    assert TextRun(["", "- a"], 1) != [];
  }

  /** The order of the document alternatives decides: an empty line followed by `- a` could
      be a paragraph, but the unordered list comes first and matches both lines. */
  lemma ListBeforeParagraph()
    ensures ParagraphBlock(["", "- a"], 0).Some?
    ensures MatchBlock(["", "- a"], 0) == ListBlock(["", "- a"], 0, false)
    ensures MatchBlock(["", "- a"], 0)
         == Some((Node(Some("unordered_list"), None, [], map[],
                       [EmptyLineNode, Group(ItemNodes([[Inline("text", "a")]]))]), 2))
  {
    SpanExact("", 0, 0, Hash);
    assert HeadingBlock(["", "- a"], 0).None?;
    ListA();
    ParagraphA();
  }

  /** Without an empty line before it, `- a` is not a list but a paragraph. */
  lemma ListNeedsEmptyLine()
    ensures MatchBlock(["- a"], 0) == ParagraphBlock(["- a"], 0)
    ensures MatchBlock(["- a"], 0).Some? && MatchBlock(["- a"], 0).value.0.tag == Some("p")
  {
    var lines := ["- a"];
    var s := "- a";
    ItemLineA();
    SpanExact(s, 0, 0, Hash);
    SpanExact(s, 0, 0, Space);
    assert TextRun(lines, 0) != [];
  }

  /** A line of Text is not blank and does not start like a heading or a quote. */
  lemma TextLineShape(line: string)
    ensures TextLine(line).Some? ==> |line| > 0 && !IsEmptyLine(line) && line[0] != '#' && line[0] != '>'
  {
    if IsEmptyLine(line) {
      EmptyLineNotText(line);
    } else if line[0] == '#' || line[0] == '>' {
      MarkedLineNotText(line);
    }
  }

  /** An empty line is never a heading line. */
  lemma EmptyLineNoHeading(line: string)
    ensures IsEmptyLine(line) ==> HeadingLine(line).None?
  {
  }

  /** A line of Text always starts a paragraph: it is neither a heading, nor an empty line
      that a list needs, nor a quote line, so the Paragraph alternative is reached, and it
      matches. */
  lemma TextLineStartsParagraph(lines: seq<string>, i: nat)
    requires i < |lines| && TextLine(lines[i]).Some?
    ensures MatchBlock(lines, i) == ParagraphBlock(lines, i)
    ensures MatchBlock(lines, i).Some? && MatchBlock(lines, i).value.0.tag == Some("p")
  {
    var line := lines[i];
    TextLineShape(line);
    SpanExact(line, 0, 0, Hash);
    assert TextRun(lines, i) != [];
  }

  /** An empty line followed by an unordered item line always starts an unordered list,
      which takes the whole run of item lines: an empty line is never a heading, and the
      unordered list is the next alternative. */
  lemma EmptyLineStartsUnorderedList(lines: seq<string>, i: nat)
    requires i + 1 < |lines| && IsEmptyLine(lines[i]) && UnorderedItem(lines[i + 1]).Some?
    ensures MatchBlock(lines, i) == ListBlock(lines, i, false)
    ensures MatchBlock(lines, i).Some?
    ensures MatchBlock(lines, i).value.0.tag == Some("unordered_list")
    ensures MatchBlock(lines, i).value.1 == i + 1 + |UnorderedRun(lines, i + 1)|
  {
    EmptyLineNoHeading(lines[i]);
    assert UnorderedRun(lines, i + 1) != [];
  }

  /** A line that starts with a digit has no unordered list marker. */
  lemma OrderedNotUnordered(line: string)
    ensures OrderedPrefix(line).Some? ==> UnorderedPrefix(line).None?
  {
    if OrderedPrefix(line).Some? {
      UnorderedPrefixIff(line);
      if |line| >= 2 {
        assert line[..2][0] == line[0];
      }
    }
  }

  /** An empty line followed by an ordered item line starts an ordered list, which takes the
      whole run of ordered item lines: a line that starts with a digit is no unordered item,
      so the unordered list does not match first. */
  lemma EmptyLineStartsOrderedList(lines: seq<string>, i: nat)
    requires i + 1 < |lines| && IsEmptyLine(lines[i]) && OrderedItem(lines[i + 1]).Some?
    ensures MatchBlock(lines, i) == ListBlock(lines, i, true)
    ensures MatchBlock(lines, i).Some?
    ensures MatchBlock(lines, i).value.0.tag == Some("ordered_list")
    ensures MatchBlock(lines, i).value.1 == i + 1 + |OrderedRun(lines, i + 1)|
  {
    EmptyLineNoHeading(lines[i]);
    OrderedNotUnordered(lines[i + 1]);
    assert UnorderedRun(lines, i + 1) == [];
    assert OrderedRun(lines, i + 1) != [];
  }

  /** A list item needs at least one inline element: a marker with nothing after it is no
      item. */
  lemma EmptyItemNoItem()
    ensures UnorderedItem("- ").None?
    ensures OrderedItem("1. ").None?
  {
    InlinesAtEnd("- ");
    InlinesAtEnd("1. ");
  }

  /** Parsing from line `i` either covers every remaining line with blocks, at most one
      block per line and at least one if any line remains, or stops at a line where no
      block starts. */
  lemma {:induction false} ParseBlocksOutcome(lines: seq<string>, i: nat)
    requires i <= |lines|
    ensures ParseBlocks(lines, i).Success? ==>
      var nodes := ParseBlocks(lines, i).value;
      |nodes| <= |lines| - i && (i < |lines| ==> nodes != [])
    ensures ParseBlocks(lines, i).Failure? ==>
      var k := ParseBlocks(lines, i).error;
      i <= k < |lines| && MatchBlock(lines, k).None?
    decreases |lines| - i
  {
    if i < |lines| && MatchBlock(lines, i).Some? {
      ParseBlocksOutcome(lines, MatchBlock(lines, i).value.1);
    }
  }

  /** A document parses when every line belongs to a block and there is at least one
      line; otherwise it fails at its start when it has no line, or at the first line where
      no block starts. */
  lemma ParseDocumentOutcome(lines: seq<string>)
    ensures ParseDocument(lines).Success? <==> lines != [] && ParseBlocks(lines, 0).Success?
    ensures ParseDocument(lines).Failure? ==>
      var k := ParseDocument(lines).error;
      (lines == [] && k == 0) || (k < |lines| && MatchBlock(lines, k).None?)
  {
    ParseBlocksOutcome(lines, 0);
  }

  // ---------------------------------------------------------------------------------------
  // Tags

  /** The tags the inline initialisers assign. */
  const InlineTags: set<string> := {"b", "i", "code", "text"}

  /** Every tag a grammar initialiser assigns. */
  const GrammarTags: set<string> :=
    InlineTags + HeadingTags + {"unordered_list", "ordered_list", "li", "quote", "p"}

  /** The tags of the six heading levels. */
  const HeadingTags: set<string> := {"h1", "h2", "h3", "h4", "h5", "h6"}

  predicate InlineTagged(xs: seq<Inline>)
  {
    forall k :: 0 <= k < |xs| ==> xs[k].tag in InlineTags
  }

  /** A tag occurs in a forest exactly when it occurs in one of its trees. */
  lemma {:induction false} TagsOfMember(nodes: seq<Node>, t: string)
    ensures t in TagsOf(nodes) <==> exists k :: 0 <= k < |nodes| && t in NodeTags(nodes[k])
    decreases |nodes|
  {
    if nodes != [] {
      var init := nodes[..|nodes| - 1];
      TagsOfMember(init, t);
      if t in TagsOf(init) {
        var k :| 0 <= k < |init| && t in NodeTags(init[k]);
        assert nodes[k] == init[k];
      }
      if exists k :: 0 <= k < |nodes| && t in NodeTags(nodes[k]) {
        var k :| 0 <= k < |nodes| && t in NodeTags(nodes[k]);
        if k < |init| {
          assert init[k] == nodes[k];
        }
      }
    }
  }

  lemma TagsOfBound(nodes: seq<Node>, tags: set<string>)
    requires forall k :: 0 <= k < |nodes| ==> NodeTags(nodes[k]) <= tags
    ensures TagsOf(nodes) <= tags
  {
    forall t | t in TagsOf(nodes)
      ensures t in tags
    {
      TagsOfMember(nodes, t);
    }
  }

  /** Every inline element is tagged `b`, `i`, `code` or `text`. */
  lemma MatchInlineTag(s: string, i: nat)
    requires i <= |s|
    ensures MatchInline(s, i).Some? ==> MatchInline(s, i).value.0.tag in InlineTags
  {
  }

  lemma {:induction false} InlinesTagged(s: string, i: nat)
    requires i <= |s|
    ensures InlineTagged(Inlines(s, i).0)
    decreases |s| - i
  {
    MatchInlineTag(s, i);
    if MatchInline(s, i).Some? {
      var (x, j) := MatchInline(s, i).value;
      InlinesTagged(s, j);
      TaggedCons(x, Inlines(s, j).0);
    }
  }

  lemma TaggedCons(x: Inline, later: seq<Inline>)
    requires x.tag in InlineTags && InlineTagged(later)
    ensures InlineTagged([x] + later)
  {
    assert forall k :: 1 <= k < |later| + 1 ==> ([x] + later)[k] == later[k - 1];
  }

  lemma InlineNodesTags(xs: seq<Inline>)
    requires InlineTagged(xs)
    ensures NodeTags(Group(InlineNodes(xs))) <= InlineTags
  {
    var nodes := InlineNodes(xs);
    forall k | 0 <= k < |nodes|
      ensures NodeTags(nodes[k]) <= InlineTags
    {
      assert TagsOf(nodes[k].elements) == {};
    }
    TagsOfBound(nodes, InlineTags);
  }

  /** The inline elements of a list item or a Text line carry inline tags only. */
  lemma LineTagged(line: string)
    ensures UnorderedItem(line).Some? ==> InlineTagged(UnorderedItem(line).value)
    ensures OrderedItem(line).Some? ==> InlineTagged(OrderedItem(line).value)
    ensures TextLine(line).Some? ==> InlineTagged(TextLine(line).value)
  {
    InlinesTagged(line, 0);
    ItemAfterTagged(line, UnorderedPrefix(line));
    ItemAfterTagged(line, OrderedPrefix(line));
  }

  lemma ItemAfterTagged(line: string, p: Option<nat>)
    ensures ItemAfter(line, p).Some? ==> InlineTagged(ItemAfter(line, p).value)
  {
    if p.Some? && p.value <= |line| {
      InlinesTagged(line, p.value);
    }
  }

  /** The singleton forest has the tags of its one tree. */
  lemma TagsOfOne(node: Node)
    ensures TagsOf([node]) == NodeTags(node)
  {
    assert [node][..0] == [];
  }

  /** The items of a list carry `li` and, below it, inline tags only. */
  lemma ItemNodesTags(items: seq<seq<Inline>>)
    requires forall k :: 0 <= k < |items| ==> InlineTagged(items[k])
    ensures NodeTags(Group(ItemNodes(items))) <= {"li"} + InlineTags
  {
    var nodes := ItemNodes(items);
    forall k | 0 <= k < |nodes|
      ensures NodeTags(nodes[k]) <= {"li"} + InlineTags
    {
      InlineNodesTags(items[k]);
      TagsOfOne(Group(InlineNodes(items[k])));
    }
    TagsOfBound(nodes, {"li"} + InlineTags);
  }

  /** The lines of a Text carry inline tags only. */
  lemma TextNodesTags(texts: seq<seq<Inline>>)
    requires forall k :: 0 <= k < |texts| ==> InlineTagged(texts[k])
    ensures NodeTags(Group(TextNodes(texts))) <= InlineTags
  {
    var nodes := TextNodes(texts);
    forall k | 0 <= k < |nodes|
      ensures NodeTags(nodes[k]) <= InlineTags
    {
      InlineNodesTags(texts[k]);
    }
    TagsOfBound(nodes, InlineTags);
  }

  /** The children of a list or a paragraph: empty-line nodes and one group, which alone
      brings tags. */
  lemma FramedTags(group: Node, framed: seq<Node>, tags: set<string>)
    requires NodeTags(group) <= tags
    requires framed == [EmptyLineNode, group] || framed == [EmptyLineNode, group, EmptyLineNode]
    ensures TagsOf(framed) <= tags
  {
    assert TagsOf([]) == {};
    TagsOfBound(framed, tags);
  }

  /** A list node is tagged `unordered_list` or `ordered_list` after its kind and has no
      text; its items are all tagged `li`, and below them there are only inline tags. */
  lemma ListBlockTags(lines: seq<string>, i: nat, ordered: bool)
    requires i < |lines|
    ensures ListBlock(lines, i, ordered).Some? ==>
      var n := ListBlock(lines, i, ordered).value.0;
      var tag := if ordered then "ordered_list" else "unordered_list";
      && n.tag == Some(tag) && n.text.None? && |n.elements| == 2
      && (forall k :: 0 <= k < |n.elements[1].elements| ==> n.elements[1].elements[k].tag == Some("li"))
      && NodeTags(n) <= {tag, "li"} + InlineTags
  {
    if ListBlock(lines, i, ordered).Some? {
      var items := if ordered then OrderedRun(lines, i + 1) else UnorderedRun(lines, i + 1);
      forall k | 0 <= k < |items|
        ensures InlineTagged(items[k])
      {
        LineTagged(lines[i + 1 + k]);
      }
      ItemNodesTags(items);
      FramedTags(Group(ItemNodes(items)), [EmptyLineNode, Group(ItemNodes(items))], {"li"} + InlineTags);
    }
  }

  lemma TextRunTagged(lines: seq<string>, start: nat)
    requires start <= |lines|
    ensures forall k :: 0 <= k < |TextRun(lines, start)| ==> InlineTagged(TextRun(lines, start)[k])
  {
    var texts := TextRun(lines, start);
    forall k | 0 <= k < |texts|
      ensures InlineTagged(texts[k])
    {
      LineTagged(lines[start + k]);
    }
  }

  lemma ParagraphNodeTags(texts: seq<seq<Inline>>)
    requires forall k :: 0 <= k < |texts| ==> InlineTagged(texts[k])
    ensures NodeTags(ParagraphNode(texts)) <= {"p"} + InlineTags
  {
    TextNodesTags(texts);
    FramedTags(Group(TextNodes(texts)), [EmptyLineNode, Group(TextNodes(texts)), EmptyLineNode], InlineTags);
  }

  /** A paragraph node is tagged `p` and has no text; below it there are only inline tags. */
  lemma ParagraphBlockTags(lines: seq<string>, i: nat)
    requires i < |lines|
    ensures ParagraphBlock(lines, i).Some? ==>
      var n := ParagraphBlock(lines, i).value.0;
      n.tag == Some("p") && n.text.None? && NodeTags(n) <= {"p"} + InlineTags
  {
    var start := ParagraphStart(lines, i);
    TextRunTagged(lines, start);
    ParagraphNodeTags(TextRun(lines, start));
  }

  /** A heading node is tagged `h1` to `h6` after the level of its line, and carries no other
      tag. */
  lemma HeadingBlockTags(lines: seq<string>, i: nat)
    requires i < |lines|
    ensures HeadingBlock(lines, i).Some? ==>
      var n := HeadingBlock(lines, i).value.0;
      && n.tag == Some(HeadingTag(HeadingLine(lines[i]).value.0))
      && n.tag.value in HeadingTags
      && NodeTags(n) == {n.tag.value}
  {
    if HeadingLine(lines[i]).Some? {
      var level := HeadingLine(lines[i]).value.0;
      HeadingTagLevel(level, level);
      assert HeadingTag(level) in HeadingTags;
    }
  }

  /** A quote node is tagged `quote`, has the joined quote lines as its text, and carries no
      other tag. */
  lemma QuoteBlockTags(lines: seq<string>, i: nat)
    requires i < |lines|
    ensures QuoteBlock(lines, i).Some? ==>
      var n := QuoteBlock(lines, i).value.0;
      n.tag == Some("quote") && n.text == Some(QuoteJoin(QuoteRun(lines, i))) && NodeTags(n) == {"quote"}
  {
  }

  /** Every block carries grammar tags only. */
  lemma MatchBlockTags(lines: seq<string>, i: nat)
    requires i < |lines|
    ensures MatchBlock(lines, i).Some? ==> NodeTags(MatchBlock(lines, i).value.0) <= GrammarTags
  {
    HeadingBlockTags(lines, i);
    ListBlockTags(lines, i, false);
    ListBlockTags(lines, i, true);
    ParagraphBlockTags(lines, i);
    QuoteBlockTags(lines, i);
  }

  lemma {:induction false} ParseBlocksTags(lines: seq<string>, i: nat)
    requires i <= |lines|
    ensures ParseBlocks(lines, i).Success? ==> TagsOf(ParseBlocks(lines, i).value) <= GrammarTags
    decreases |lines| - i
  {
    if i < |lines| && MatchBlock(lines, i).Some? && ParseBlocks(lines, i).Success? {
      var (node, j) := MatchBlock(lines, i).value;
      MatchBlockTags(lines, i);
      ParseBlocksTags(lines, j);
      var later := ParseBlocks(lines, j).value;
      var nodes := [node] + later;
      forall t | t in TagsOf(nodes)
        ensures t in GrammarTags
      {
        TagsOfMember(nodes, t);
        var k :| 0 <= k < |nodes| && t in NodeTags(nodes[k]);
        if k > 0 {
          assert nodes[k] == later[k - 1];
          TagsOfMember(later, t);
        }
      }
    }
  }

  /** A parsed document carries grammar tags only; in particular no node is tagged `list`. */
  lemma ParseDocumentTags(lines: seq<string>)
    ensures ParseDocument(lines).Success? ==>
      NodeTags(ParseDocument(lines).value) <= GrammarTags && "list" !in NodeTags(ParseDocument(lines).value)
  {
    ParseBlocksTags(lines, 0);
    ListNotGrammarTag();
  }

  /** `list`, the tag the renderer renames to `ul`, is not among the grammar's tags. */
  lemma ListNotGrammarTag()
    ensures "list" !in GrammarTags
  {
  }

  // ---------------------------------------------------------------------------------------
  // The rename tables of the two back ends

  /** The renderer's table renames the quote only: its `list` entry matches no tag the
      grammar assigns, so lists keep their grammar tags. */
  lemma RendererRenamesGrammarTags(tag: string)
    requires tag in GrammarTags
    ensures Rename(Some(tag), Some(Renderer.Replacements)) == Some(if tag == "quote" then "blockquote" else tag)
  {
    ListNotGrammarTag();
  }

  /** The transform's table renames the quote and both kinds of list, and nothing else. */
  lemma TransformRenamesGrammarTags(tag: string)
    requires tag in GrammarTags
    ensures Rename(Some(tag), Some(Transform.Replacements))
         == Some(if tag == "quote" then "blockquote"
                 else if tag == "unordered_list" then "ul"
                 else if tag == "ordered_list" then "ol"
                 else tag)
  {
  }
}
