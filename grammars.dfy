/** The Markdown grammar of twomartens/markdown/grammars.py as a deterministic recogniser.

    A document is a sequence of lines (each line without its line break). Every repetition is
    greedy and every alternation is ordered: the first alternative that matches is taken, in
    the order the grammar declares them. Each recogniser returns the node it builds, with the
    tag and text its `grammar_elem_init` assigns, and the position after the match. Literal
    and line-boundary sub-matches carry no tag and no sub-elements, so they are not kept as
    nodes. */
module Grammars {
  import opened Wrappers
  import opened ParseTree

  // ---------------------------------------------------------------------------------------
  // Character classes and runs

  /** `\s` of the SimpleText start-character class, restricted to ASCII. */
  predicate IsWhitespace(c: char)
  {
    c == ' ' || c == '\t' || c == '\n' || c == '\r' || c as int == 11 || c as int == 12
  }

  /** The character classes the grammar's `WORD`s, `SPACE` and `#` repetition use. */
  datatype CharClass =
    | Space      // SPACE
    | Hash       // L("#")
    | TextStart  // "^\s#>*`": the first character of simple text
    | TextRest   // "^\n\r*`": the other characters of simple text
    | Emphasis   // "^\n\r*": the text of Bold and Italic
    | Code       // "^\n\r`": the text of InlineCode
    | Digit      // "0-9": the number of an ordered list item

  predicate InClass(c: char, cls: CharClass)
  {
    match cls
    case Space => c == ' '
    case Hash => c == '#'
    case TextStart => !IsWhitespace(c) && c != '#' && c != '>' && c != '*' && c != '`'
    case TextRest => c != '\n' && c != '\r' && c != '*' && c != '`'
    case Emphasis => c != '\n' && c != '\r' && c != '*'
    case Code => c != '\n' && c != '\r' && c != '`'
    case Digit => '0' <= c <= '9'
  }

  /** The end of the longest run of `cls` characters starting at `i`. */
  function Span(s: string, i: nat, cls: CharClass): (j: nat)
    requires i <= |s|
    ensures i <= j <= |s|
    ensures forall k :: i <= k < j ==> InClass(s[k], cls)
    ensures j < |s| ==> !InClass(s[j], cls)
    decreases |s| - i
  {
    if i == |s| || !InClass(s[i], cls) then i else Span(s, i + 1, cls)
  }

  /** The literal `lit` occurs in `s` at `i`. */
  predicate At(s: string, i: nat, lit: string)
  {
    i + |lit| <= |s| && s[i..i + |lit|] == lit
  }

  // ---------------------------------------------------------------------------------------
  // Ordered choice

  /** `OR(first, second)`: the first alternative's match if it has one, otherwise the
      second's. A longer `OR` nests this to the right, keeping the declared order. */
  function OrElse<T>(first: Option<T>, second: Option<T>): Option<T>
  {
    if first.Some? then first else second
  }

  // ---------------------------------------------------------------------------------------
  // Inline elements

  /** A matched inline element: its tag and its text. */
  datatype Inline = Inline(tag: string, text: string)

  /** An opening literal, a non-empty run of `cls` characters that is the text, and a closing
      literal: Bold, Italic and InlineCode. */
  function Delimited(s: string, i: nat, open: string, cls: CharClass, close: string, tag: string)
    : (r: Option<(Inline, nat)>)
    requires i <= |s|
    ensures r.Some? ==> var (x, e) := r.value;
      && i < e <= |s| && x.tag == tag && x.text != []
      && s[i..e] == open + x.text + close
      && forall k :: 0 <= k < |x.text| ==> InClass(x.text[k], cls)
  {
    if !At(s, i, open) then None
    else
      var j := Span(s, i + |open|, cls);
      if j > i + |open| && At(s, j, close) then
        var x := Inline(tag, s[i + |open|..j]);
        assert s[i..j + |close|] == s[i..i + |open|] + s[i + |open|..j] + s[j..j + |close|];
        Some((x, j + |close|))
      else None
  }

  /** Bold: `**`, text without `*` or a line break, `**`; tag `b`. */
  function MatchBold(s: string, i: nat): (r: Option<(Inline, nat)>)
    requires i <= |s|
    ensures r.Some? ==> r.value.0.tag == "b" && i < r.value.1 <= |s|
    ensures r.Some? ==> s[i..r.value.1] == "**" + r.value.0.text + "**"
  {
    Delimited(s, i, "**", Emphasis, "**", "b")
  }

  /** Italic: `*`, text without `*` or a line break, `*`; tag `i`. */
  function MatchItalic(s: string, i: nat): (r: Option<(Inline, nat)>)
    requires i <= |s|
    ensures r.Some? ==> r.value.0.tag == "i" && i < r.value.1 <= |s|
    ensures r.Some? ==> s[i..r.value.1] == "*" + r.value.0.text + "*"
  {
    Delimited(s, i, "*", Emphasis, "*", "i")
  }

  /** InlineCode: a backtick, text without a backtick or a line break, a backtick; tag `code`. */
  function MatchCode(s: string, i: nat): (r: Option<(Inline, nat)>)
    requires i <= |s|
    ensures r.Some? ==> r.value.0.tag == "code" && i < r.value.1 <= |s|
    ensures r.Some? ==> s[i..r.value.1] == "`" + r.value.0.text + "`"
  {
    Delimited(s, i, "`", Code, "`", "code")
  }

  /** SimpleText: spaces, then a word that starts with a character that is neither white
      space nor one of `#>*` and a backtick, and goes on up to a `*`, a backtick or a line
      break; tag `text`, and the text is the word without the spaces. */
  function MatchSimpleText(s: string, i: nat): (r: Option<(Inline, nat)>)
    requires i <= |s|
    ensures r.Some? ==> var (x, e) := r.value;
      && i < e <= |s| && x.tag == "text" && x.text != []
      && InClass(x.text[0], TextStart)
      && (forall k :: 1 <= k < |x.text| ==> InClass(x.text[k], TextRest))
      && i + |x.text| <= e
      && (forall k :: i <= k < e - |x.text| ==> s[k] == ' ')
      && s[e - |x.text|..e] == x.text
      && (e < |s| ==> !InClass(s[e], TextRest))
  {
    var k := Span(s, i, Space);
    if k < |s| && InClass(s[k], TextStart) then
      var j := Span(s, k + 1, TextRest);
      Some((Inline("text", s[k..j]), j))
    else None
  }

  /** The inline `OR(Bold, Italic, InlineCode, SimpleText)`, in that order. */
  function MatchInline(s: string, i: nat): (r: Option<(Inline, nat)>)
    requires i <= |s|
    ensures r.Some? ==> i < r.value.1 <= |s|
  {
    OrElse(MatchBold(s, i), OrElse(MatchItalic(s, i), OrElse(MatchCode(s, i), MatchSimpleText(s, i))))
  }

  /** `REPEAT(OR(...))`: inline elements matched one after the other for as long as one
      matches; the repetition stops where no inline element starts. */
  function Inlines(s: string, i: nat): (r: (seq<Inline>, nat))
    requires i <= |s|
    ensures i <= r.1 <= |s|
    ensures MatchInline(s, r.1).None?
    ensures r.0 == [] <==> r.1 == i
    decreases |s| - i
  {
    match MatchInline(s, i)
    case None => ([], i)
    case Some((x, j)) =>
      var rest := Inlines(s, j);
      ([x] + rest.0, rest.1)
  }

  /** The inline elements from `i` to the end of the line, if they cover it. */
  function InlinesToEnd(line: string, i: nat): (r: Option<seq<Inline>>)
    requires i <= |line|
    ensures r.Some? ==> (r.value == [] <==> i == |line|)
  {
    var (xs, e) := Inlines(line, i);
    if e == |line| then Some(xs) else None
  }

  // ---------------------------------------------------------------------------------------
  // Lines

  /** `#` repeated `k` times. */
  function Hashes(k: nat): (r: string)
    ensures |r| == k && forall j :: 0 <= j < k ==> r[j] == '#'
  {
    if k == 0 then "" else Hashes(k - 1) + "#"
  }

  /** Heading: one to six `#`, one space and the rest of the line, which is the text. The
      repetition of `#` is greedy, so a seventh `#` where the space should be fails the
      line. */
  function HeadingLine(line: string): (r: Option<(nat, string)>)
    ensures r.Some? ==> 1 <= r.value.0 <= 6 && line == Hashes(r.value.0) + " " + r.value.1
  {
    var k := Span(line, 0, Hash);
    if 1 <= k <= 6 && k < |line| && line[k] == ' ' then
      assert line[..k] == Hashes(k);
      assert line == line[..k] + [line[k]] + line[k + 1..];
      Some((k, line[k + 1..]))
    else None
  }

  /** `str(n)`: the decimal digits of `n`. */
  function DecimalString(n: nat): (r: string)
    ensures r != [] && forall k :: 0 <= k < |r| ==> '0' <= r[k] <= '9'
  {
    var digit := ['0' + (n % 10) as char];
    if n < 10 then digit else DecimalString(n / 10) + digit
  }

  /** The Heading initialiser's tag: `h` followed by the number of `#`. */
  function HeadingTag(level: nat): (r: string)
    ensures |r| >= 2 && r[0] == 'h' && forall k :: 1 <= k < |r| ==> '0' <= r[k] <= '9'
  {
    "h" + DecimalString(level)
  }

  /** EmptyLine: nothing on the line but spaces. */
  predicate IsEmptyLine(line: string): (r: bool)
    ensures r <==> forall k :: 0 <= k < |line| ==> line[k] == ' '
  {
    var j := Span(line, 0, Space);
    assert j < |line| ==> line[j] != ' ';
    j == |line|
  }

  /** QuoteLine: a `>` and the rest of the line, which is kept as the quote line. */
  function QuoteLine(line: string): (r: Option<string>)
    ensures r.Some? ==> line == ">" + r.value
  {
    if |line| > 0 && line[0] == '>' then
      assert line == [line[0]] + line[1..];
      Some(line[1..])
    else None
  }

  /** The marker `OR("* ", "- ", "+ ")` of an unordered list item, in that order. */
  const UnorderedMarkers: seq<string> := ["* ", "- ", "+ "]

  /** The position after the marker of an unordered list item, if the line has one. */
  function UnorderedPrefix(line: string): (r: Option<nat>)
    ensures r.Some? ==> r.value == 2 <= |line| && line[1] == ' '
  {
    OrElse(if At(line, 0, "* ") then Some(2) else None,
      OrElse(if At(line, 0, "- ") then Some(2) else None,
             if At(line, 0, "+ ") then Some(2) else None))
  }

  /** The position after the number and the `. ` of an ordered list item, if the line has
      them. */
  function OrderedPrefix(line: string): (r: Option<nat>)
    ensures r.Some? ==> 3 <= r.value <= |line| && line[0] != '.' && line[r.value - 2..r.value] == ". "
  {
    var d := Span(line, 0, Digit);
    if d > 0 && At(line, d, ". ") then Some(d + 2) else None
  }

  /** The inline elements after a list item marker ending at `p`: one or more of them (the
      item's `REPEAT` has the default minimum of one), covering the rest of the line. */
  function ItemAfter(line: string, p: Option<nat>): Option<seq<Inline>>
  {
    if p.Some? && p.value <= |line| then
      var xs := InlinesToEnd(line, p.value);
      if xs.Some? && xs.value != [] then xs else None
    else None
  }

  /** The line of an unordered list item. */
  function UnorderedItem(line: string): (r: Option<seq<Inline>>)
    ensures r.Some? ==> UnorderedPrefix(line).Some? && r.value != [] && |line| > 2
  {
    ItemAfter(line, UnorderedPrefix(line))
  }

  /** The line of an ordered list item. */
  function OrderedItem(line: string): (r: Option<seq<Inline>>)
    ensures r.Some? ==> r.value != [] && OrderedPrefix(line).Some? && |line| > OrderedPrefix(line).value
  {
    ItemAfter(line, OrderedPrefix(line))
  }

  /** A line of Text: one or more inline elements covering the line. */
  function TextLine(line: string): (r: Option<seq<Inline>>)
    ensures r.Some? ==> r.value != [] && |line| > 0
  {
    var xs := InlinesToEnd(line, 0);
    if xs.Some? && xs.value != [] then xs else None
  }

  // ---------------------------------------------------------------------------------------
  // Quote

  /** The Quote initialiser's text: every quote line, in order, after one space. */
  function QuoteJoin(quoteLines: seq<string>): string
  {
    if quoteLines == [] then ""
    else QuoteJoin(quoteLines[..|quoteLines| - 1]) + " " + quoteLines[|quoteLines| - 1]
  }

  /** `Quote.grammar_elem_init`: the loop over the quote lines. */
  method QuoteText(quoteLines: seq<string>) returns (quote: string)
    ensures quote == QuoteJoin(quoteLines)
  {
    quote := "";
    var i := 0;
    while i < |quoteLines|
      invariant 0 <= i <= |quoteLines|
      invariant quote == QuoteJoin(quoteLines[..i])
    {
      quote := quote + " " + quoteLines[i];
      assert quoteLines[..i + 1][..i] == quoteLines[..i];
      i := i + 1;
    }
    assert quoteLines[..i] == quoteLines;
  }

  // ---------------------------------------------------------------------------------------
  // Nodes

  /** An inline element as a node with its tag and text. */
  function InlineNode(x: Inline): Node
  {
    Node(Some(x.tag), Some(x.text), [], map[], [])
  }

  /** The nodes of a repetition of inline elements. */
  function InlineNodes(xs: seq<Inline>): (r: seq<Node>)
    ensures |r| == |xs| && forall k :: 0 <= k < |xs| ==> r[k] == InlineNode(xs[k])
  {
    seq(|xs|, k requires 0 <= k < |xs| => InlineNode(xs[k]))
  }

  /** A list item node: tag `li`, no text, and the repetition of its inline elements. */
  function ItemNode(xs: seq<Inline>): Node
  {
    Node(Some("li"), None, [], map[], [Group(InlineNodes(xs))])
  }

  function ItemNodes(items: seq<seq<Inline>>): (r: seq<Node>)
    ensures |r| == |items| && forall k :: 0 <= k < |items| ==> r[k] == ItemNode(items[k])
  {
    seq(|items|, k requires 0 <= k < |items| => ItemNode(items[k]))
  }

  /** The lines of a Text: each line is the repetition of its inline elements. */
  function TextNodes(lines: seq<seq<Inline>>): (r: seq<Node>)
    ensures |r| == |lines| && forall k :: 0 <= k < |lines| ==> r[k] == Group(InlineNodes(lines[k]))
  {
    seq(|lines|, k requires 0 <= k < |lines| => Group(InlineNodes(lines[k])))
  }

  /** An EmptyLine, or an OPTIONAL that did not match: no tag, nothing under it. */
  const EmptyLineNode: Node := Group([])

  // ---------------------------------------------------------------------------------------
  // Blocks

  /** `REPEAT` over lines: the longest run of lines from line `i` that the line recogniser
      `line` matches, with what it made of each. */
  function Run<T>(line: string -> Option<T>, lines: seq<string>, i: nat): (r: seq<T>)
    requires i <= |lines|
    ensures i + |r| <= |lines|
    ensures forall k :: 0 <= k < |r| ==> line(lines[i + k]) == Some(r[k])
    ensures i + |r| < |lines| ==> line(lines[i + |r|]).None?
    decreases |lines| - i
  {
    if i == |lines| || line(lines[i]).None? then []
    else
      var later := Run(line, lines, i + 1);
      assert forall k :: 1 <= k < |later| + 1 ==> ([line(lines[i]).value] + later)[k] == later[k - 1];
      [line(lines[i]).value] + later
  }

  /** The longest run of ordered list item lines from line `i`. */
  function OrderedRun(lines: seq<string>, i: nat): (r: seq<seq<Inline>>)
    requires i <= |lines|
    ensures i + |r| <= |lines|
    ensures forall k :: 0 <= k < |r| ==> OrderedItem(lines[i + k]) == Some(r[k])
    ensures i + |r| < |lines| ==> OrderedItem(lines[i + |r|]).None?
  {
    Run(OrderedItem, lines, i)
  }

  /** The longest run of unordered list item lines from line `i`. */
  function UnorderedRun(lines: seq<string>, i: nat): (r: seq<seq<Inline>>)
    requires i <= |lines|
    ensures i + |r| <= |lines|
    ensures forall k :: 0 <= k < |r| ==> UnorderedItem(lines[i + k]) == Some(r[k])
    ensures i + |r| < |lines| ==> UnorderedItem(lines[i + |r|]).None?
  {
    Run(UnorderedItem, lines, i)
  }

  /** The longest run of quote lines from line `i`, as their kept rests. */
  function QuoteRun(lines: seq<string>, i: nat): (r: seq<string>)
    requires i <= |lines|
    ensures i + |r| <= |lines|
    ensures forall k :: 0 <= k < |r| ==> QuoteLine(lines[i + k]) == Some(r[k])
    ensures i + |r| < |lines| ==> QuoteLine(lines[i + |r|]).None?
  {
    Run(QuoteLine, lines, i)
  }

  /** The longest run of Text lines from line `i`. */
  function TextRun(lines: seq<string>, i: nat): (r: seq<seq<Inline>>)
    requires i <= |lines|
    ensures i + |r| <= |lines|
    ensures forall k :: 0 <= k < |r| ==> TextLine(lines[i + k]) == Some(r[k])
    ensures i + |r| < |lines| ==> TextLine(lines[i + |r|]).None?
  {
    Run(TextLine, lines, i)
  }

  /** Heading: one line; tag `h1` to `h6`, text the rest of the line. */
  function HeadingBlock(lines: seq<string>, i: nat): (r: Option<(Node, nat)>)
    requires i < |lines|
    ensures r.Some? <==> HeadingLine(lines[i]).Some?
    ensures r.Some? ==> r.value.1 == i + 1
  {
    match HeadingLine(lines[i])
    case None => None
    case Some((level, text)) => Some((Node(Some(HeadingTag(level)), Some(text), [], map[], []), i + 1))
  }

  /** UnorderedList / OrderedList: an empty line, then one or more item lines; tag
      `unordered_list` / `ordered_list`, no text. */
  function ListBlock(lines: seq<string>, i: nat, ordered: bool): (r: Option<(Node, nat)>)
    requires i < |lines|
    ensures var items := if ordered then OrderedRun(lines, i + 1) else UnorderedRun(lines, i + 1);
      && (r.Some? <==> IsEmptyLine(lines[i]) && items != [])
      && (r.Some? ==> r.value.1 == i + 1 + |items| <= |lines|)
  {
    if !IsEmptyLine(lines[i]) then None
    else
      var items := if ordered then OrderedRun(lines, i + 1) else UnorderedRun(lines, i + 1);
      if items == [] then None
      else
        var tag := if ordered then "ordered_list" else "unordered_list";
        Some((Node(Some(tag), None, [], map[], [EmptyLineNode, Group(ItemNodes(items))]), i + 1 + |items|))
  }

  /** Quote: one or more quote lines; tag `quote`, text their join. */
  function QuoteBlock(lines: seq<string>, i: nat): (r: Option<(Node, nat)>)
    requires i < |lines|
    ensures r.Some? <==> QuoteLine(lines[i]).Some?
    ensures r.Some? ==> r.value.1 == i + |QuoteRun(lines, i)| <= |lines|
  {
    var rests := QuoteRun(lines, i);
    if rests == [] then None
    else Some((Node(Some("quote"), Some(QuoteJoin(rests)), [], map[], []), i + |rests|))
  }

  /** Where a Paragraph's Text lines start: after its optional leading empty line. */
  function ParagraphStart(lines: seq<string>, i: nat): (r: nat)
    requires i < |lines|
    ensures i <= r <= i + 1
    ensures r == i + 1 <==> IsEmptyLine(lines[i])
  {
    if IsEmptyLine(lines[i]) then i + 1 else i
  }

  /** Where a Paragraph ends, given where its Text lines end: after the optional trailing
      empty line. */
  function ParagraphEnd(lines: seq<string>, after: nat): (r: nat)
    requires after <= |lines|
    ensures after <= r <= |lines| && r <= after + 1
    ensures r == after + 1 <==> after < |lines| && IsEmptyLine(lines[after])
  {
    if after < |lines| && IsEmptyLine(lines[after]) then after + 1 else after
  }

  /** The Paragraph node over its Text lines: tag `p`, no text. */
  function ParagraphNode(texts: seq<seq<Inline>>): (r: Node)
    ensures r.tag == Some("p") && r.text.None?
  {
    Node(Some("p"), None, [], map[], [EmptyLineNode, Group(TextNodes(texts)), EmptyLineNode])
  }

  /** Paragraph: an optional empty line, one or more Text lines, an optional empty line; tag
      `p`, no text. */
  function ParagraphBlock(lines: seq<string>, i: nat): (r: Option<(Node, nat)>)
    requires i < |lines|
    ensures r.Some? <==> TextRun(lines, ParagraphStart(lines, i)) != []
    ensures r.Some? ==> r.value.1 == ParagraphEnd(lines, ParagraphStart(lines, i) + |TextRun(lines, ParagraphStart(lines, i))|)
    ensures r.Some? ==> i < r.value.1 <= |lines|
  {
    if TextRun(lines, ParagraphStart(lines, i)) == [] then None
    else
      Some((ParagraphNode(TextRun(lines, ParagraphStart(lines, i))),
            ParagraphEnd(lines, ParagraphStart(lines, i) + |TextRun(lines, ParagraphStart(lines, i))|)))
  }

  /** EmptyLine on its own: no tag, nothing under it. */
  function EmptyLineBlock(lines: seq<string>, i: nat): (r: Option<(Node, nat)>)
    requires i < |lines|
    ensures r.Some? <==> IsEmptyLine(lines[i])
    ensures r.Some? ==> r.value.1 == i + 1
  {
    if IsEmptyLine(lines[i]) then Some((EmptyLineNode, i + 1)) else None
  }

  /** The block starting at line `i`: the first of the alternatives of `MarkdownGrammar`, in
      their declared order, that matches. Every block consumes at least one line. */
  function MatchBlock(lines: seq<string>, i: nat): (r: Option<(Node, nat)>)
    requires i < |lines|
    ensures r.Some? ==> i < r.value.1 <= |lines|
  {
    OrElse(HeadingBlock(lines, i),
    OrElse(ListBlock(lines, i, false),
    OrElse(ListBlock(lines, i, true),
    OrElse(QuoteBlock(lines, i),
    OrElse(ParagraphBlock(lines, i),
           EmptyLineBlock(lines, i))))))
  }

  /** The blocks from line `i` to the end, or the first line at which no block starts. */
  function ParseBlocks(lines: seq<string>, i: nat): (r: Result<seq<Node>, nat>)
    requires i <= |lines|
    ensures r.Success? ==> |r.value| <= |lines| - i
    ensures r.Failure? ==> i <= r.error < |lines|
    decreases |lines| - i
  {
    if i == |lines| then Success([])
    else match MatchBlock(lines, i)
      case None => Failure(i)
      case Some((node, j)) =>
        match ParseBlocks(lines, j)
        case Success(nodes) => Success([node] + nodes)
        case Failure(k) => Failure(k)
  }

  /** `MarkdownGrammar`: the repetition of blocks, collapsed into one grouping node. The
      repetition has the default minimum of one, so a document without any block fails at
      its start. */
  function ParseDocument(lines: seq<string>): (r: Result<Node, nat>)
    ensures r.Success? ==> lines != [] && r.value.tag.None? && r.value.text.None?
    ensures r.Failure? ==> r.error < |lines| || (lines == [] && r.error == 0)
  {
    match ParseBlocks(lines, 0)
    case Success(nodes) => if nodes == [] then Failure(0) else Success(Group(nodes))
    case Failure(k) => Failure(k)
  }
}
