/** The tree-to-HTML transform of twomartens/markdown/transform.py: flattening the parse
    tree into element records, rendering each record as an indented HTML block, and
    joining the top-level blocks into the page content. */
module Transform {
  import opened Wrappers
  import opened Strings
  import opened ParseTree

  /** A normalised element record `(tag, text, children, attributes, options)`. */
  datatype Element = Element(
    tag: string,
    text: Option<string>,
    children: seq<Element>,
    attributes: seq<(string, string)>,
    options: map<string, bool>)

  /** A child that is rendered as an inline item rather than as a nested block. */
  predicate IsLeaf(e: Element)
  {
    e.text.Some? && |e.children| == 0
  }

  // ---------------------------------------------------------------------------------------
  // Options

  const DefaultOptions: map<string, bool> :=
    map["indentation" := true, "onlyOuterLinebreaks" := false]

  /** `{**default_options, **options}`: the defaults, overridden by every supplied key. */
  function MergeOptions(options: map<string, bool>): (r: map<string, bool>)
    ensures r.Keys == DefaultOptions.Keys + options.Keys
    ensures forall k :: k in options ==> r[k] == options[k]
    ensures forall k :: k in DefaultOptions && k !in options ==> r[k] == DefaultOptions[k]
  {
    DefaultOptions + options
  }

  /** The effective `indentation` flag: true unless the element turns it off. */
  function Indentation(options: map<string, bool>): (r: bool)
  {
    MergeOptions(options)["indentation"]
  }

  /** The effective `onlyOuterLinebreaks` flag: false unless the element turns it on. */
  function OnlyOuterLinebreaks(options: map<string, bool>): (r: bool)
  {
    MergeOptions(options)["onlyOuterLinebreaks"]
  }

  /** Merging the defaults in a second time changes nothing. */
  lemma MergeOptionsIdempotent(options: map<string, bool>)
    ensures MergeOptions(MergeOptions(options)) == MergeOptions(options)
  {
  }

  // ---------------------------------------------------------------------------------------
  // Attributes

  /** `name="value"`. */
  function AttributePair(attribute: (string, string)): string
  {
    attribute.0 + "=\"" + attribute.1 + "\""
  }

  /** The attribute pairs in order, separated by single spaces. */
  function JoinAttributes(attributes: seq<(string, string)>): string
  {
    if |attributes| == 0 then ""
    else if |attributes| == 1 then AttributePair(attributes[0])
    else JoinAttributes(attributes[..|attributes| - 1]) + " " + AttributePair(attributes[|attributes| - 1])
  }

  /** The serialised attribute list: empty for no attributes, otherwise one leading space and
      the pairs separated by single spaces. */
  function Attributes(attributes: seq<(string, string)>): (r: string)
    ensures r == "" <==> attributes == []
    ensures attributes != [] ==> r[0] == ' '
  {
    if |attributes| == 0 then "" else " " + JoinAttributes(attributes)
  }

  /** `_html_build_attributes`: the loop puts a space before every pair but the first, then
      prefixes the whole result with a space unless it is empty. */
  method BuildAttributes(attributes: seq<(string, string)>) returns (result: string)
    ensures result == Attributes(attributes)
  {
    result := "";
    var i := 0;
    while i < |attributes|
      invariant 0 <= i <= |attributes|
      invariant result == JoinAttributes(attributes[..i])
      invariant result == "" <==> i == 0
    {
      if result != "" {
        result := result + " ";
      }
      result := result + AttributePair(attributes[i]);
      assert attributes[..i + 1][..i] == attributes[..i];
      i := i + 1;
    }
    assert attributes[..i] == attributes;
    if result != "" {
      result := " " + result;
    }
  }

  // ---------------------------------------------------------------------------------------
  // Items and blocks

  function OpenTag(tag: string, attributes: seq<(string, string)>): string
  {
    "<" + tag + Attributes(attributes) + ">"
  }

  function CloseTag(tag: string): string
  {
    "</" + tag + ">"
  }

  /** `_html_build_item`: an inline element, wrapped in its tags or bare. */
  function BuildItem(tag: string, text: string, attributes: seq<(string, string)>, includeTags: bool): (r: string)
    ensures !includeTags ==> r == text
    ensures includeTags ==>
      var (open, close) := (OpenTag(tag, attributes), CloseTag(tag));
      && |r| == |open| + |text| + |close|
      && r[..|open|] == open && r[|open|..|open| + |text|] == text && r[|open| + |text|..] == close
  {
    if includeTags then OpenTag(tag, attributes) + text + CloseTag(tag) else text
  }

  /** The text of a block without children; a block with children does not show its text. */
  function LeafText(elements: seq<Element>, text: Option<string>): string
  {
    if |elements| == 0 && text.Some? then text.value else ""
  }

  /** The block as `_html_build_block` renders it at the given nesting level. Only a level-1
      block whose effective `indentation` is on ("outer") inserts line breaks and indents of its
      own: a line break before every child, or only before the first child when
      `onlyOuterLinebreaks` is on; an indent before every leaf child, or only before the first
      leaf child when `onlyOuterLinebreaks` is on; and its closing tag on a line of its own. */
  function Block(tag: string, elements: seq<Element>, text: Option<string>,
                 attributes: seq<(string, string)>, options: map<string, bool>, nesting: nat): string
    decreases elements, 1
  {
    var outer := nesting == 1 && Indentation(options);
    Indent(nesting) + "<" + tag + Attributes(attributes) + ">" + LeafText(elements, text)
    + Children(elements, |elements|, outer, OnlyOuterLinebreaks(options), nesting)
    + (if outer && |elements| > 0 then "\n" + Indent(nesting) else "")
    + "</" + tag + ">"
  }

  /** A block is its indent, opening tag, leaf text, children and closing part, in order. */
  lemma BlockPieces(tag: string, elements: seq<Element>, text: Option<string>,
                    attributes: seq<(string, string)>, options: map<string, bool>, nesting: nat)
    ensures var outer := nesting == 1 && Indentation(options);
      Block(tag, elements, text, attributes, options, nesting)
      == Indent(nesting) + OpenTag(tag, attributes) + LeafText(elements, text)
         + Children(elements, |elements|, outer, OnlyOuterLinebreaks(options), nesting)
         + (if outer && |elements| > 0 then "\n" + Indent(nesting) else "")
         + CloseTag(tag)
  {
    var outer := nesting == 1 && Indentation(options);
    RegroupTags(Indent(nesting), tag, Attributes(attributes), LeafText(elements, text),
            Children(elements, |elements|, outer, OnlyOuterLinebreaks(options), nesting),
            if outer && |elements| > 0 then "\n" + Indent(nesting) else "");
  }

  /** Every block starts with the indent for its level and its opening tag with the serialised
      attributes, and ends with its closing tag. */
  lemma BlockShape(tag: string, elements: seq<Element>, text: Option<string>,
                   attributes: seq<(string, string)>, options: map<string, bool>, nesting: nat)
    ensures var r := Block(tag, elements, text, attributes, options, nesting);
      && |Indent(nesting) + OpenTag(tag, attributes)| + |CloseTag(tag)| <= |r|
      && r[..|Indent(nesting) + OpenTag(tag, attributes)|] == Indent(nesting) + OpenTag(tag, attributes)
      && r[|r| - |CloseTag(tag)|..] == CloseTag(tag)
  {
    var outer := nesting == 1 && Indentation(options);
    BlockPieces(tag, elements, text, attributes, options, nesting);
    Affixes(Indent(nesting) + OpenTag(tag, attributes), LeafText(elements, text),
            Children(elements, |elements|, outer, OnlyOuterLinebreaks(options), nesting),
            if outer && |elements| > 0 then "\n" + Indent(nesting) else "", CloseTag(tag));
  }

  /** The line break a block inserts before child `i`. */
  function Linebreak(i: nat, outer: bool, onlyOuter: bool): string
  {
    if outer && (!onlyOuter || i == 0) then "\n" else ""
  }

  /** No child before index `i` is a leaf. */
  predicate NoLeafBefore(elements: seq<Element>, i: nat)
    requires i <= |elements|
  {
    i == 0 || (NoLeafBefore(elements, i - 1) && !IsLeaf(elements[i - 1]))
  }

  /** The indent a block inserts before child `i`. */
  function Lead(elements: seq<Element>, i: nat, outer: bool, onlyOuter: bool, nesting: nat): string
    requires i < |elements|
  {
    if IsLeaf(elements[i]) && outer && (!onlyOuter || NoLeafBefore(elements, i))
    then Indent(nesting + 1) else ""
  }

  /** A child as rendered without any line break or indent of its parent: a leaf as an item,
      bare when its tag is `text`, any other child as a block one level deeper. */
  function Plain(e: Element, nesting: nat): string
    decreases e.children, 2
  {
    if IsLeaf(e) then BuildItem(e.tag, e.text.value, e.attributes, e.tag != "text")
    else Block(e.tag, e.children, e.text, e.attributes, e.options, nesting + 1)
  }

  /** The rendering of the first `k` children inside their parent. */
  function Children(elements: seq<Element>, k: nat, outer: bool, onlyOuter: bool, nesting: nat): string
    requires k <= |elements|
    decreases elements, 0, k
  {
    if k == 0 then ""
    else
      Children(elements, k - 1, outer, onlyOuter, nesting)
      + Linebreak(k - 1, outer, onlyOuter)
      + Lead(elements, k - 1, outer, onlyOuter, nesting)
      + Plain(elements[k - 1], nesting)
  }

  /** A block does not change when its options already have the defaults merged in. */
  lemma BlockMergedOptions(tag: string, elements: seq<Element>, text: Option<string>,
                           attributes: seq<(string, string)>, options: map<string, bool>, nesting: nat)
    ensures Block(tag, elements, text, attributes, MergeOptions(options), nesting)
         == Block(tag, elements, text, attributes, options, nesting)
  {
    MergeOptionsIdempotent(options);
  }

  /** The content after the first `k` children, as the loop of `_html_build_block` appends
      to the opening `head`. */
  ghost function Appended(head: string, elements: seq<Element>, k: nat, outer: bool, onlyOuter: bool, nesting: nat): string
    requires k <= |elements|
  {
    if k == 0 then head
    else
      var before := Appended(head, elements, k - 1, outer, onlyOuter, nesting);
      var broken := if outer && (!onlyOuter || k - 1 == 0) then before + "\n" else before;
      var indented := if IsLeaf(elements[k - 1]) && outer && (!onlyOuter || NoLeafBefore(elements, k - 1))
                      then broken + Indent(nesting + 1) else broken;
      indented + Plain(elements[k - 1], nesting)
  }

  /** One step of the accumulation, with the intermediate contents named. */
  lemma AppendedNext(head: string, elements: seq<Element>, k: nat, outer: bool, onlyOuter: bool, nesting: nat,
                     before: string, broken: string, indented: string)
    requires k < |elements|
    requires before == Appended(head, elements, k, outer, onlyOuter, nesting)
    requires broken == if outer && (!onlyOuter || k == 0) then before + "\n" else before
    requires indented == if IsLeaf(elements[k]) && outer && (!onlyOuter || NoLeafBefore(elements, k))
                         then broken + Indent(nesting + 1) else broken
    ensures Appended(head, elements, k + 1, outer, onlyOuter, nesting) == indented + Plain(elements[k], nesting)
    ensures NoLeafBefore(elements, k + 1) <==> NoLeafBefore(elements, k) && !IsLeaf(elements[k])
  {
  }

  lemma {:induction false} AppendedChildren(head: string, elements: seq<Element>, k: nat, outer: bool, onlyOuter: bool, nesting: nat)
    requires k <= |elements|
    ensures Appended(head, elements, k, outer, onlyOuter, nesting) == head + Children(elements, k, outer, onlyOuter, nesting)
  {
    if k > 0 {
      AppendedChildren(head, elements, k - 1, outer, onlyOuter, nesting);
      var done := Children(elements, k - 1, outer, onlyOuter, nesting);
      var lb := Linebreak(k - 1, outer, onlyOuter);
      var lead := Lead(elements, k - 1, outer, onlyOuter, nesting);
      var p := Plain(elements[k - 1], nesting);
      AppendStep(head, done, lb, lead, p);
      assert head + done + "" == head + done;
      assert head + done + lb + "" == head + done + lb;
    }
  }

  /** The accumulated content of a block, closed as `_html_build_block` closes it, is the
      block. */
  lemma BlockClosed(tag: string, elements: seq<Element>, text: Option<string>,
                    attributes: seq<(string, string)>, options: map<string, bool>, nesting: nat,
                    head: string, body: string, closed: string)
    requires head == Indent(nesting) + "<" + tag + Attributes(attributes) + ">" + LeafText(elements, text)
    requires body == Appended(head, elements, |elements|, nesting == 1 && Indentation(options),
                              OnlyOuterLinebreaks(options), nesting)
    requires closed == if nesting == 1 && Indentation(options) && |elements| > 0
                       then body + "\n" + Indent(nesting) else body
    ensures closed + "</" + tag + ">" == Block(tag, elements, text, attributes, options, nesting)
  {
    var outer := nesting == 1 && Indentation(options);
    var children := Children(elements, |elements|, outer, OnlyOuterLinebreaks(options), nesting);
    var tail := if outer && |elements| > 0 then "\n" + Indent(nesting) else "";
    AppendedChildren(head, elements, |elements|, outer, OnlyOuterLinebreaks(options), nesting);
    assert Block(tag, elements, text, attributes, options, nesting) == head + children + tail + "</" + tag + ">";
    if outer && |elements| > 0 {
      Append(head + children, "\n", Indent(nesting));
    } else {
      assert head + children + "" == head + children;
    }
  }

  /** `_html_build_block`: the loop counts the line breaks and the indents it has inserted
      and asks the counters before inserting another one. */
  method BuildBlock(tag: string, elements: seq<Element>, text: Option<string>,
                    attributes: seq<(string, string)>, options: map<string, bool>, nesting: nat := 1)
    returns (content: string)
    ensures content == Block(tag, elements, text, attributes, options, nesting)
    decreases elements, 1
  {
    var attrs := BuildAttributes(attributes);
    var opts := MergeOptions(options);
    assert "indentation" in opts && "onlyOuterLinebreaks" in opts;
    content := Indent(nesting) + "<" + tag + attrs + ">";
    var insertedLinebreaks := 0;
    var insertedIndents := 0;
    if |elements| == 0 && text.Some? {
      content := content + text.value;
    }
    ghost var outer := nesting == 1 && opts["indentation"];
    ghost var onlyOuter := opts["onlyOuterLinebreaks"];
    ghost var head := content;
    var i := 0;
    while i < |elements|
      invariant 0 <= i <= |elements|
      invariant content == Appended(head, elements, i, outer, onlyOuter, nesting)
      invariant outer && onlyOuter ==> (insertedLinebreaks == 0 <==> i == 0)
      invariant outer && onlyOuter ==> (insertedIndents == 0 <==> NoLeafBefore(elements, i))
    {
      var e := elements[i];
      ghost var before := content;
      if nesting == 1 && opts["indentation"]
         && ((opts["onlyOuterLinebreaks"] && insertedLinebreaks == 0) || !opts["onlyOuterLinebreaks"])
      {
        content := content + "\n";
        insertedLinebreaks := insertedLinebreaks + 1;
      }
      ghost var broken := content;
      if e.text.Some? && |e.children| == 0 {
        var indent := Indent(nesting + 1);
        if nesting == 1 && opts["indentation"]
           && (!opts["onlyOuterLinebreaks"] || (opts["onlyOuterLinebreaks"] && insertedIndents == 0))
        {
          content := content + indent;
          insertedIndents := insertedIndents + 1;
        }
      }
      ghost var indented := content;
      var child := BuildChild(e, nesting);
      content := content + child;
      AppendedNext(head, elements, i, outer, onlyOuter, nesting, before, broken, indented);
      i := i + 1;
    }
    ghost var body := content;
    if nesting == 1 && |elements| > 0 && opts["indentation"] {
      content := content + "\n" + Indent(nesting);
    }
    BlockClosed(tag, elements, text, attributes, options, nesting, head, body, content);
    content := content + "</" + tag + ">";
  }

  /** What the loop of `_html_build_block` appends for a child after its line break and
      indent: a leaf as an item, bare when its tag is `text`, any other child as a block one
      level deeper under its own options merged with the defaults. */
  method BuildChild(e: Element, nesting: nat) returns (child: string)
    ensures child == Plain(e, nesting)
    decreases e.children, 2
  {
    if e.text.Some? && |e.children| == 0 {
      child := BuildItem(e.tag, e.text.value, e.attributes, e.tag != "text");
    } else {
      var childOptions := MergeOptions(e.options);
      child := BuildBlock(e.tag, e.children, e.text, e.attributes, childOptions, nesting + 1);
      BlockMergedOptions(e.tag, e.children, e.text, e.attributes, e.options, nesting + 1);
    }
  }

  // ---------------------------------------------------------------------------------------
  // Extraction

  /** The element records of a forest of nodes, in order. */
  function ExtractAll(nodes: seq<Node>, replacements: Option<map<string, string>>): seq<Element>
    decreases nodes, 1
  {
    if nodes == [] then []
    else ExtractAll(nodes[..|nodes| - 1], replacements) + ExtractNode(nodes[|nodes| - 1], replacements)
  }

  /** What one node contributes: a tagged node is one record, whose children are extracted
      without replacements unless it has both a tag and a text; an untagged node contributes
      its extracted children in its place, or nothing. */
  function ExtractNode(node: Node, replacements: Option<map<string, string>>): (r: seq<Element>)
    ensures var tag := Rename(node.tag, replacements);
      tag.Some? ==>
        && |r| == 1 && r[0].tag == tag.value && r[0].text == node.text
        && r[0].attributes == node.attributes && r[0].options == node.options
        && (node.text.Some? ==> r[0].children == [])
    decreases node
  {
    var tag := Rename(node.tag, replacements);
    var children := if (tag.None? || node.text.None?) && |node.elements| > 0
                    then ExtractAll(node.elements, None) else [];
    if tag.Some? then [Element(tag.value, node.text, children, node.attributes, node.options)]
    else children
  }

  /** `_extract_elements`: a loop over the sub-nodes that appends records or splices the
      records of an untagged node, recursing without the replacement table. */
  method ExtractElements(structure: Node, replacements: Option<map<string, string>>)
    returns (elements: seq<Element>)
    ensures elements == ExtractAll(structure.elements, replacements)
    decreases structure
  {
    elements := [];
    var i := 0;
    while i < |structure.elements|
      invariant 0 <= i <= |structure.elements|
      invariant elements == ExtractAll(structure.elements[..i], replacements)
    {
      var elem := structure.elements[i];
      var tag := elem.tag;
      var text := elem.text;
      var children := [];
      if replacements.Some? && tag.Some? {
        tag := if tag.value in replacements.value then Some(replacements.value[tag.value]) else tag;
      }
      if (tag.None? || text.None?) && |elem.elements| > 0 {
        children := ExtractElements(elem, None);
      }
      if tag.Some? {
        elements := elements + [Element(tag.value, text, children, elem.attributes, elem.options)];
      } else if |children| > 0 {
        elements := elements + children;
      }
      assert structure.elements[..i + 1][..i] == structure.elements[..i];
      i := i + 1;
    }
    assert structure.elements[..i] == structure.elements;
  }

  // ---------------------------------------------------------------------------------------
  // Page content and format dispatch

  /** The tag renames `_html_transform` applies to top-level records. */
  const Replacements: map<string, string> :=
    map["unordered_list" := "ul", "quote" := "blockquote", "ordered_list" := "ol"]

  /** Every top-level record rendered as a level-1 block. */
  function TopBlocks(elements: seq<Element>): (r: seq<string>)
    ensures |r| == |elements|
    ensures forall i :: 0 <= i < |r| ==> r[i] != ""
  {
    if elements == [] then []
    else
      var e := elements[|elements| - 1];
      BlockShape(e.tag, e.children, e.text, e.attributes, e.options, 1);
      TopBlocks(elements[..|elements| - 1]) + [Block(e.tag, e.children, e.text, e.attributes, e.options, 1)]
  }

  /** The content loop of `_html_transform`: a line break is added before a block whenever
      the content built so far is not empty. */
  method HtmlContent(elements: seq<Element>) returns (content: string)
    ensures content == JoinLines(TopBlocks(elements))
  {
    content := "";
    var i := 0;
    while i < |elements|
      invariant 0 <= i <= |elements|
      invariant content == JoinLines(TopBlocks(elements[..i]))
    {
      JoinLinesEnds(TopBlocks(elements[..i]));
      var e := elements[i];
      if content != "" {
        content := content + "\n";
      }
      var block := BuildBlock(e.tag, e.children, e.text, e.attributes, e.options);
      content := content + block;
      assert elements[..i + 1][..i] == elements[..i];
      i := i + 1;
    }
    assert elements[..i] == elements;
  }

  /** The output formats there is a transform for. */
  datatype Format = Html

  /** The transform a format name selects: only `html` has one. */
  function FormatNamed(name: string): (r: Option<Format>)
    ensures r.Some? <==> name == "html"
  {
    if name == "html" then Some(Html) else None
  }

  datatype TransformError =
    | UnknownFormat(name: string)  // no `_<format>_transform` exists; the source calls `None`
    | NoHeading                    // the document has no Heading to take the title from

  /** The values substituted into the page template. */
  datatype Page = Page(title: string, content: string)

  /** The page for a parse tree: the content string and the title, which is the text of the
      first Heading node of the tree (`heading` — the library's tree search is not modelled). */
  function HtmlPage(structure: Node, heading: Option<string>): Result<Page, TransformError>
  {
    if heading.None? then Failure(NoHeading)
    else Success(Page(heading.value, JoinLines(TopBlocks(ExtractAll(structure.elements, Some(Replacements))))))
  }

  /** `_html_transform`, up to the template substitution. */
  method HtmlTransform(structure: Node, heading: Option<string>) returns (r: Result<Page, TransformError>)
    ensures r == HtmlPage(structure, heading)
  {
    var elements := ExtractElements(structure, Some(Replacements));
    if heading.None? {
      return Failure(NoHeading);
    }
    var content := HtmlContent(elements);
    r := Success(Page(heading.value, content));
  }

  /** `transform`: dispatch on the format name. */
  method Transform(structure: Node, outputFormat: string, heading: Option<string>)
    returns (r: Result<Page, TransformError>)
    ensures outputFormat != "html" ==> r == Failure(UnknownFormat(outputFormat))
    ensures outputFormat == "html" ==> r == HtmlPage(structure, heading)
  {
    match FormatNamed(outputFormat)
    case Some(Html) => r := HtmlTransform(structure, heading);
    case None => r := Failure(UnknownFormat(outputFormat));
  }
}
