/** The older tree-to-HTML renderer of twomartens/markdown/renderer.py: element triples
    without attributes or options, a fixed layout for level-1 blocks, and plain text items
    prefixed with a space. */
module Renderer {
  import opened Wrappers
  import opened Strings
  import opened ParseTree

  /** An element triple `(tag, text, children)`. */
  datatype Element = Element(tag: string, text: Option<string>, children: seq<Element>)

  /** A child that is rendered as an inline item rather than as a nested block. */
  predicate IsLeaf(e: Element)
  {
    e.text.Some? && |e.children| == 0
  }

  // ---------------------------------------------------------------------------------------
  // Items and blocks

  /** `_html_render_item`: an inline element in its tags, or its text after one space. */
  function RenderItem(tag: string, text: string, includeTags: bool): (r: string)
    ensures !includeTags ==> r == " " + text
    ensures includeTags ==>
      var (open, close) := ("<" + tag + ">", "</" + tag + ">");
      && |r| == |open| + |text| + |close|
      && r[..|open|] == open && r[|open|..|open| + |text|] == text && r[|open| + |text|..] == close
  {
    if includeTags then "<" + tag + ">" + text + "</" + tag + ">" else " " + text
  }

  /** The text of a block without children; a block with children does not show its text. */
  function LeafText(elements: seq<Element>, text: Option<string>): string
  {
    if |elements| == 0 && text.Some? then text.value else ""
  }

  /** The block as `_html_render_block` renders it at the given nesting level. A level-1
      block puts a line break before every child, an indent before every leaf child and its
      closing tag on a line of its own; deeper blocks insert nothing of their own. */
  function Block(tag: string, elements: seq<Element>, text: Option<string>, nesting: nat): string
    decreases elements, 1
  {
    Indent(nesting) + "<" + tag + ">" + LeafText(elements, text)
    + Children(elements, |elements|, nesting)
    + (if nesting == 1 && |elements| > 0 then "\n" + Indent(nesting) else "")
    + "</" + tag + ">"
  }

  /** A child as rendered without the line break or indent of its parent: a leaf as an item,
      with the space form for the tag `text`, any other child as a block one level deeper. */
  function Plain(e: Element, nesting: nat): string
    decreases e.children, 2
  {
    if IsLeaf(e) then RenderItem(e.tag, e.text.value, e.tag != "text")
    else Block(e.tag, e.children, e.text, nesting + 1)
  }

  /** The line break a block of the given level inserts before each child. */
  function Linebreak(nesting: nat): string
  {
    if nesting == 1 then "\n" else ""
  }

  /** The indent a block of the given level inserts before a child. */
  function Lead(e: Element, nesting: nat): string
  {
    if IsLeaf(e) && nesting == 1 then Indent(nesting + 1) else ""
  }

  /** The rendering of the first `k` children inside their parent. */
  function Children(elements: seq<Element>, k: nat, nesting: nat): string
    requires k <= |elements|
    decreases elements, 0, k
  {
    if k == 0 then ""
    else
      Children(elements, k - 1, nesting) + Linebreak(nesting) + Lead(elements[k - 1], nesting)
      + Plain(elements[k - 1], nesting)
  }

  /** A block is its indent, opening tag, leaf text, children and closing part, in order. */
  lemma BlockPieces(tag: string, elements: seq<Element>, text: Option<string>, nesting: nat)
    ensures Block(tag, elements, text, nesting)
         == Indent(nesting) + ("<" + tag + ">") + LeafText(elements, text) + Children(elements, |elements|, nesting)
            + (if nesting == 1 && |elements| > 0 then "\n" + Indent(nesting) else "") + ("</" + tag + ">")
  {
    RegroupBareTags(Indent(nesting), tag, LeafText(elements, text), Children(elements, |elements|, nesting),
                    if nesting == 1 && |elements| > 0 then "\n" + Indent(nesting) else "");
  }

  /** Every block starts with the indent for its level and its opening tag, and ends with its
      closing tag. */
  lemma BlockShape(tag: string, elements: seq<Element>, text: Option<string>, nesting: nat)
    ensures var r := Block(tag, elements, text, nesting);
      && |Indent(nesting) + ("<" + tag + ">")| + |"</" + tag + ">"| <= |r|
      && r[..|Indent(nesting) + ("<" + tag + ">")|] == Indent(nesting) + ("<" + tag + ">")
      && r[|r| - |"</" + tag + ">"|..] == "</" + tag + ">"
  {
    BlockPieces(tag, elements, text, nesting);
    Affixes(Indent(nesting) + ("<" + tag + ">"), LeafText(elements, text), Children(elements, |elements|, nesting),
            if nesting == 1 && |elements| > 0 then "\n" + Indent(nesting) else "", "</" + tag + ">");
  }

  /** The content after the first `k` children, as the loop of `_html_render_block` appends
      to the opening `head`. */
  ghost function Appended(head: string, elements: seq<Element>, k: nat, nesting: nat): string
    requires k <= |elements|
  {
    if k == 0 then head
    else
      var before := Appended(head, elements, k - 1, nesting);
      var broken := if nesting == 1 then before + "\n" else before;
      var e := elements[k - 1];
      if IsLeaf(e) then broken + (if nesting == 1 then Indent(nesting + 1) else "") + Plain(e, nesting)
      else broken + Plain(e, nesting)
  }

  /** One step of the accumulation, with the intermediate contents named. */
  lemma AppendedNext(head: string, elements: seq<Element>, k: nat, nesting: nat,
                     before: string, broken: string, child: string)
    requires k < |elements|
    requires before == Appended(head, elements, k, nesting)
    requires broken == if nesting == 1 then before + "\n" else before
    requires child == Lead(elements[k], nesting) + Plain(elements[k], nesting)
    ensures Appended(head, elements, k + 1, nesting) == broken + child
  {
    var p := Plain(elements[k], nesting);
    if IsLeaf(elements[k]) {
      Append(broken, if nesting == 1 then Indent(nesting + 1) else "", p);
    } else {
      assert "" + p == p;
    }
  }

  lemma {:induction false} AppendedChildren(head: string, elements: seq<Element>, k: nat, nesting: nat)
    requires k <= |elements|
    ensures Appended(head, elements, k, nesting) == head + Children(elements, k, nesting)
  {
    if k > 0 {
      AppendedChildren(head, elements, k - 1, nesting);
      var done := Children(elements, k - 1, nesting);
      var e := elements[k - 1];
      AppendStep(head, done, Linebreak(nesting), Lead(e, nesting), Plain(e, nesting));
      assert head + done + "" == head + done;
    }
  }

  /** The accumulated content of a block, closed as `_html_render_block` closes it, is the
      block. */
  lemma BlockClosed(tag: string, elements: seq<Element>, text: Option<string>, nesting: nat,
                    head: string, body: string, closed: string)
    requires head == Indent(nesting) + "<" + tag + ">" + LeafText(elements, text)
    requires body == Appended(head, elements, |elements|, nesting)
    requires closed == if nesting == 1 && |elements| > 0 then body + "\n" + Indent(nesting) else body
    ensures closed + "</" + tag + ">" == Block(tag, elements, text, nesting)
  {
    var children := Children(elements, |elements|, nesting);
    var tail := if nesting == 1 && |elements| > 0 then "\n" + Indent(nesting) else "";
    AppendedChildren(head, elements, |elements|, nesting);
    assert Block(tag, elements, text, nesting) == head + children + tail + "</" + tag + ">";
    if nesting == 1 && |elements| > 0 {
      Append(head + children, "\n", Indent(nesting));
    } else {
      assert head + children + "" == head + children;
    }
  }

  /** `_html_render_block`. */
  method RenderBlock(tag: string, elements: seq<Element>, text: Option<string>, nesting: nat := 1)
    returns (content: string)
    ensures content == Block(tag, elements, text, nesting)
    decreases elements, 1
  {
    content := Indent(nesting) + "<" + tag + ">";
    if |elements| == 0 && text.Some? {
      content := content + text.value;
    }
    ghost var head := content;
    var i := 0;
    while i < |elements|
      invariant 0 <= i <= |elements|
      invariant content == Appended(head, elements, i, nesting)
    {
      ghost var before := content;
      if nesting == 1 {
        content := content + "\n";
      }
      ghost var broken := content;
      var child := RenderChild(elements[i], nesting);
      content := content + child;
      AppendedNext(head, elements, i, nesting, before, broken, child);
      i := i + 1;
    }
    ghost var body := content;
    if nesting == 1 && |elements| > 0 {
      content := content + "\n" + Indent(nesting);
    }
    BlockClosed(tag, elements, text, nesting, head, body, content);
    content := content + "</" + tag + ">";
  }

  /** One child as the loop of `_html_render_block` appends it: a leaf as an item, indented
      two levels at level 1, any other child as a block one level deeper. */
  method RenderChild(e: Element, nesting: nat) returns (child: string)
    ensures child == Lead(e, nesting) + Plain(e, nesting)
    decreases e.children, 2
  {
    if e.text.Some? && |e.children| == 0 {
      var lead := if nesting == 1 then Indent(nesting + 1) else "";
      var item := RenderItem(e.tag, e.text.value, e.tag != "text");
      child := lead + item;
    } else {
      child := RenderBlock(e.tag, e.children, e.text, nesting + 1);
      assert "" + child == child;
    }
  }

  // ---------------------------------------------------------------------------------------
  // Extraction

  /** The element triples of a forest of nodes, in order. */
  function ExtractAll(nodes: seq<Node>, replacements: Option<map<string, string>>): seq<Element>
    decreases nodes, 1
  {
    if nodes == [] then []
    else ExtractAll(nodes[..|nodes| - 1], replacements) + ExtractNode(nodes[|nodes| - 1], replacements)
  }

  /** What one node contributes: a tagged node is one triple, whose children are extracted
      without replacements unless it has both a tag and a text; an untagged node contributes
      its extracted children in its place, or nothing. */
  function ExtractNode(node: Node, replacements: Option<map<string, string>>): (r: seq<Element>)
    ensures var tag := Rename(node.tag, replacements);
      tag.Some? ==> |r| == 1 && r[0].tag == tag.value && r[0].text == node.text && (node.text.Some? ==> r[0].children == [])
    decreases node
  {
    var tag := Rename(node.tag, replacements);
    var children := if (tag.None? || node.text.None?) && |node.elements| > 0
                    then ExtractAll(node.elements, None) else [];
    if tag.Some? then [Element(tag.value, node.text, children)] else children
  }

  /** `_extract_elements` of the renderer. */
  method ExtractElements(structure: Node, replacements: Option<map<string, string>>)
    returns (elements: seq<Element>)
    ensures elements == ExtractAll(structure.elements, replacements)
    decreases structure
  {
    elements := [];
    var i := 0;
    while i < |structure.elements|
      invariant 0 <= i <= |structure.elements|
      invariant elements == ExtractAll(structure.elements[..i], replacements)
    {
      var elem := structure.elements[i];
      var tag := elem.tag;
      var text := elem.text;
      var children := [];
      if replacements.Some? && tag.Some? {
        tag := if tag.value in replacements.value then Some(replacements.value[tag.value]) else tag;
      }
      if (tag.None? || text.None?) && |elem.elements| > 0 {
        children := ExtractElements(elem, None);
      }
      if tag.Some? {
        elements := elements + [Element(tag.value, text, children)];
      } else if |children| > 0 {
        elements := elements + children;
      }
      assert structure.elements[..i + 1][..i] == structure.elements[..i];
      i := i + 1;
    }
    assert structure.elements[..i] == structure.elements;
  }

  // ---------------------------------------------------------------------------------------
  // Page content and format dispatch

  /** The tag renames `_html_render` applies to top-level triples. */
  const Replacements: map<string, string> := map["list" := "ul", "quote" := "blockquote"]

  /** Every top-level triple rendered as a level-1 block. */
  function TopBlocks(elements: seq<Element>): (r: seq<string>)
    ensures |r| == |elements|
    ensures forall i :: 0 <= i < |r| ==> r[i] != ""
  {
    if elements == [] then []
    else
      var e := elements[|elements| - 1];
      BlockShape(e.tag, e.children, e.text, 1);
      TopBlocks(elements[..|elements| - 1]) + [Block(e.tag, e.children, e.text, 1)]
  }

  /** The content loop of `_html_render`: a line break is added before a block whenever the
      content built so far is not empty. */
  method RenderContent(elements: seq<Element>) returns (content: string)
    ensures content == JoinLines(TopBlocks(elements))
  {
    content := "";
    var i := 0;
    while i < |elements|
      invariant 0 <= i <= |elements|
      invariant content == JoinLines(TopBlocks(elements[..i]))
    {
      JoinLinesEnds(TopBlocks(elements[..i]));
      var e := elements[i];
      if content != "" {
        content := content + "\n";
      }
      var block := RenderBlock(e.tag, e.children, e.text);
      content := content + block;
      assert elements[..i + 1][..i] == elements[..i];
      i := i + 1;
    }
    assert elements[..i] == elements;
  }

  datatype RenderError =
    | UnknownFormat(name: string)  // no `_<format>_render` exists; the source calls `None`
    | NoHeading                    // the document has no Heading to take the title from

  /** The values substituted into the page template. */
  datatype Page = Page(title: string, content: string)

  /** The page for a parse tree: the content string and the title, which is the text of the
      first Heading node of the tree (`heading`). */
  function HtmlPage(structure: Node, heading: Option<string>): Result<Page, RenderError>
  {
    if heading.None? then Failure(NoHeading)
    else Success(Page(heading.value, JoinLines(TopBlocks(ExtractAll(structure.elements, Some(Replacements))))))
  }

  /** `_html_render`, up to the template substitution. */
  method HtmlRender(structure: Node, heading: Option<string>) returns (r: Result<Page, RenderError>)
    ensures r == HtmlPage(structure, heading)
  {
    var elements := ExtractElements(structure, Some(Replacements));
    if heading.None? {
      return Failure(NoHeading);
    }
    var content := RenderContent(elements);
    r := Success(Page(heading.value, content));
  }

  /** `render`: dispatch on the format name; only `html` has a renderer. */
  method Render(structure: Node, outputFormat: string, heading: Option<string>)
    returns (r: Result<Page, RenderError>)
    ensures outputFormat != "html" ==> r == Failure(UnknownFormat(outputFormat))
    ensures outputFormat == "html" ==> r == HtmlPage(structure, heading)
  {
    if outputFormat == "html" {
      r := HtmlRender(structure, heading);
    } else {
      r := Failure(UnknownFormat(outputFormat));
    }
  }
}
