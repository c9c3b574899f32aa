/** Properties of the HTML transform: attribute serialisation, the layout rules of a block,
    and what extraction keeps, drops, renames and guarantees. */
module TransformLemmas {
  import opened Wrappers
  import opened Strings
  import opened ParseTree
  import opened Transform

  // ---------------------------------------------------------------------------------------
  // Options

  /** The effective flags of an element: `indentation` is on and `onlyOuterLinebreaks` off
      unless the element's own options say otherwise. */
  lemma EffectiveOptions(options: map<string, bool>)
    ensures Indentation(options) <==> ("indentation" !in options || options["indentation"])
    ensures OnlyOuterLinebreaks(options) <==> ("onlyOuterLinebreaks" in options && options["onlyOuterLinebreaks"])
  {
  }

  // ---------------------------------------------------------------------------------------
  // Attributes and items

  /** Every attribute pair is preceded by exactly one space, in the order given. */
  lemma AttributesAppend(attributes: seq<(string, string)>, attribute: (string, string))
    ensures Attributes(attributes + [attribute]) == Attributes(attributes) + " " + AttributePair(attribute)
  {
    var all := attributes + [attribute];
    assert all[..|all| - 1] == attributes;
    if attributes != [] {
      assert JoinAttributes(all) == JoinAttributes(attributes) + " " + AttributePair(attribute);
    }
  }

  /** A block without children shows its text between its tags, exactly as the item for the
      same tag, text and attributes does. */
  lemma LeafBlockIsItem(tag: string, text: string, attributes: seq<(string, string)>,
                        options: map<string, bool>, nesting: nat)
    ensures Block(tag, [], Some(text), attributes, options, nesting)
         == Indent(nesting) + BuildItem(tag, text, attributes, true)
  {
    BlockPieces(tag, [], Some(text), attributes, options, nesting);
    Tighten(Indent(nesting), OpenTag(tag, attributes), text, CloseTag(tag));
  }

  /** A block with neither children nor text is its two tags. */
  lemma EmptyBlock(tag: string, attributes: seq<(string, string)>, options: map<string, bool>, nesting: nat)
    ensures Block(tag, [], None, attributes, options, nesting)
         == Indent(nesting) + OpenTag(tag, attributes) + CloseTag(tag)
  {
    BlockPieces(tag, [], None, attributes, options, nesting);
    Tighten(Indent(nesting), OpenTag(tag, attributes), "", CloseTag(tag));
  }

  // ---------------------------------------------------------------------------------------
  // Layout of a block's children

  /** Children `j` to `k - 1` in order, each rendered plainly, with nothing between them. */
  function Flat(elements: seq<Element>, j: nat, k: nat, nesting: nat): string
    requires j <= k <= |elements|
    decreases k
  {
    if j == k then "" else Flat(elements, j, k - 1, nesting) + Plain(elements[k - 1], nesting)
  }

  /** A block that is not an indenting level-1 block inserts neither line breaks nor indents:
      its children follow each other directly. */
  lemma {:induction false} UnindentedChildren(elements: seq<Element>, k: nat, onlyOuter: bool, nesting: nat)
    requires k <= |elements|
    ensures Children(elements, k, false, onlyOuter, nesting) == Flat(elements, 0, k, nesting)
  {
    if k > 0 {
      UnindentedChildren(elements, k - 1, onlyOuter, nesting);
      var done := Children(elements, k - 1, false, onlyOuter, nesting);
      assert done + "" + "" == done;
    }
  }

  /** When the block is nested (level other than 1) or its `indentation` is off, the only
      line breaks and indents in it are its own leading indent and those inside its
      children. */
  lemma UnindentedBlock(tag: string, elements: seq<Element>, text: Option<string>,
                        attributes: seq<(string, string)>, options: map<string, bool>, nesting: nat)
    requires nesting != 1 || !Indentation(options)
    ensures Block(tag, elements, text, attributes, options, nesting)
         == Indent(nesting) + OpenTag(tag, attributes) + LeafText(elements, text)
            + Flat(elements, 0, |elements|, nesting) + CloseTag(tag)
  {
    BlockPieces(tag, elements, text, attributes, options, nesting);
    UnindentedChildren(elements, |elements|, OnlyOuterLinebreaks(options), nesting);
    var front := Indent(nesting) + OpenTag(tag, attributes) + LeafText(elements, text)
                 + Flat(elements, 0, |elements|, nesting);
    assert front + "" == front;
  }

  /** Below level 1 the options of a block make no difference to its rendering. */
  lemma NestedBlockIgnoresOptions(tag: string, elements: seq<Element>, text: Option<string>,
                                  attributes: seq<(string, string)>, options: map<string, bool>,
                                  other: map<string, bool>, nesting: nat)
    requires nesting != 1
    ensures Block(tag, elements, text, attributes, options, nesting)
         == Block(tag, elements, text, attributes, other, nesting)
  {
    UnindentedBlock(tag, elements, text, attributes, options, nesting);
    UnindentedBlock(tag, elements, text, attributes, other, nesting);
  }

  /** The index of the first leaf among the first `k` children, or `k` if there is none. */
  function FirstLeaf(elements: seq<Element>, k: nat): (f: nat)
    requires k <= |elements|
    ensures f <= k
  {
    if k == 0 then 0
    else if FirstLeaf(elements, k - 1) < k - 1 then FirstLeaf(elements, k - 1)
    else if IsLeaf(elements[k - 1]) then k - 1
    else k
  }

  lemma {:induction false} FirstLeafIsFirst(elements: seq<Element>, k: nat)
    requires k <= |elements|
    ensures NoLeafBefore(elements, k) <==> FirstLeaf(elements, k) == k
    ensures FirstLeaf(elements, k) < k ==>
      IsLeaf(elements[FirstLeaf(elements, k)]) && NoLeafBefore(elements, FirstLeaf(elements, k))
  {
    if k > 0 {
      FirstLeafIsFirst(elements, k - 1);
    }
  }

  /** An indenting level-1 block with `onlyOuterLinebreaks` inserts exactly one line break,
      before its first child, and at most one indent, before its first leaf child; the
      children otherwise follow each other directly. */
  lemma {:induction false} OnlyOuterChildren(elements: seq<Element>, k: nat, nesting: nat)
    requires k <= |elements|
    ensures var f := FirstLeaf(elements, k);
      Children(elements, k, true, true, nesting)
      == (if k == 0 then "" else "\n")
         + (if f < k then Flat(elements, 0, f, nesting) + Indent(nesting + 1) + Flat(elements, f, k, nesting)
            else Flat(elements, 0, k, nesting))
  {
    if k > 0 {
      OnlyOuterChildren(elements, k - 1, nesting);
      FirstLeafIsFirst(elements, k - 1);
      var g := FirstLeaf(elements, k - 1);
      var front := Flat(elements, 0, g, nesting);
      var back := Flat(elements, g, k - 1, nesting);
      var flat := Flat(elements, 0, k - 1, nesting);
      var done := Children(elements, k - 1, true, true, nesting);
      PickBranch(done, k - 1 == 0, g < k - 1, front + Indent(nesting + 1) + back, flat);
      if g < k - 1 {
        ChildAfterFirstLeaf(elements, k, g, front, back, nesting);
      } else {
        ChildUpToFirstLeaf(elements, k, flat, nesting);
      }
    }
  }

  /** A child after the first leaf adds neither a line break nor an indent. */
  lemma ChildAfterFirstLeaf(elements: seq<Element>, k: nat, g: nat, front: string, back: string, nesting: nat)
    requires 0 < k <= |elements|
    requires g == FirstLeaf(elements, k - 1) && g < k - 1 && IsLeaf(elements[g])
    requires front == Flat(elements, 0, g, nesting) && back == Flat(elements, g, k - 1, nesting)
    requires Children(elements, k - 1, true, true, nesting) == "\n" + (front + Indent(nesting + 1) + back)
    ensures FirstLeaf(elements, k) == g
    ensures Children(elements, k, true, true, nesting)
      == "\n" + (front + Indent(nesting + 1) + Flat(elements, g, k, nesting))
  {
    var p := Plain(elements[k - 1], nesting);
    NoLeafAfterLeaf(elements, g, k - 1);
    assert Linebreak(k - 1, true, true) == "" && Lead(elements, k - 1, true, true, nesting) == "";
    ExtendEarlier(front, Indent(nesting + 1), back, p);
  }

  /** Once a leaf has been seen, no later index has only non-leaves before it. */
  lemma {:induction false} NoLeafAfterLeaf(elements: seq<Element>, f: nat, i: nat)
    requires f < i <= |elements| && IsLeaf(elements[f])
    ensures !NoLeafBefore(elements, i)
    decreases i
  {
    if i - 1 > f {
      NoLeafAfterLeaf(elements, f, i - 1);
    }
  }

  /** Up to and including the first leaf, the first child gets the line break and the first
      leaf the indent. */
  lemma ChildUpToFirstLeaf(elements: seq<Element>, k: nat, flat: string, nesting: nat)
    requires 0 < k <= |elements|
    requires FirstLeaf(elements, k - 1) == k - 1 && NoLeafBefore(elements, k - 1)
    requires flat == Flat(elements, 0, k - 1, nesting)
    requires Children(elements, k - 1, true, true, nesting) == (if k - 1 == 0 then "" else "\n") + flat
    ensures FirstLeaf(elements, k) == if IsLeaf(elements[k - 1]) then k - 1 else k
    ensures Children(elements, k, true, true, nesting)
      == "\n" + (if IsLeaf(elements[k - 1])
                 then flat + Indent(nesting + 1) + Flat(elements, k - 1, k, nesting)
                 else Flat(elements, 0, k, nesting))
  {
    var p := Plain(elements[k - 1], nesting);
    var nl := if k - 1 == 0 then "" else "\n";
    var lb := Linebreak(k - 1, true, true);
    if IsLeaf(elements[k - 1]) {
      assert Lead(elements, k - 1, true, true, nesting) == Indent(nesting + 1);
      ExtendFirst(nl, flat, lb, Indent(nesting + 1), p);
    } else {
      assert Lead(elements, k - 1, true, true, nesting) == "";
      ExtendNone(nl, flat, lb, p);
    }
  }

  /** The whole level-1 block with `indentation` and `onlyOuterLinebreaks` and at least one
      child: one line break after the opening tag, the children directly after each other with
      one indent before the first leaf, and the closing tag on a line of its own. */
  lemma OnlyOuterBlock(tag: string, elements: seq<Element>, text: Option<string>,
                       attributes: seq<(string, string)>, options: map<string, bool>)
    requires Indentation(options) && OnlyOuterLinebreaks(options) && elements != []
    ensures var f := FirstLeaf(elements, |elements|);
      Block(tag, elements, text, attributes, options, 1)
      == Indent(1) + OpenTag(tag, attributes) + "\n"
         + (if f < |elements| then Flat(elements, 0, f, 1) + Indent(2) + Flat(elements, f, |elements|, 1)
            else Flat(elements, 0, |elements|, 1))
         + "\n" + Indent(1) + CloseTag(tag)
  {
    BlockPieces(tag, elements, text, attributes, options, 1);
    OnlyOuterChildren(elements, |elements|, 1);
    var f := FirstLeaf(elements, |elements|);
    var middle := if f < |elements| then Flat(elements, 0, f, 1) + Indent(2) + Flat(elements, f, |elements|, 1)
                  else Flat(elements, 0, |elements|, 1);
    var front := Indent(1) + OpenTag(tag, attributes);
    assert front + "" == front;
    LinesAround(front, middle, Indent(1), CloseTag(tag));
  }

  // ---------------------------------------------------------------------------------------
  // Extraction

  /** Extraction works node by node: the records of a forest are those of its parts, in
      order. */
  lemma {:induction false} ExtractAppend(a: seq<Node>, b: seq<Node>, replacements: Option<map<string, string>>)
    ensures ExtractAll(a + b, replacements) == ExtractAll(a, replacements) + ExtractAll(b, replacements)
    decreases |b|
  {
    if b == [] {
      assert a + b == a;
    } else {
      var init := b[..|b| - 1];
      var last := b[|b| - 1];
      assert (a + b)[..|a + b| - 1] == a + init;
      assert (a + b)[|a + b| - 1] == last;
      ExtractAppend(a, init, replacements);
      assert ExtractAll(a + b, replacements) == ExtractAll(a + init, replacements) + ExtractNode(last, replacements);
    }
  }

  /** A forest whose nodes all keep a tag gives exactly one record per node, in the same
      order, each with the node's tag as renamed and the node's text. */
  lemma {:induction false} ExtractAllTagged(nodes: seq<Node>, replacements: Option<map<string, string>>)
    requires forall k :: 0 <= k < |nodes| ==> Rename(nodes[k].tag, replacements).Some?
    ensures |ExtractAll(nodes, replacements)| == |nodes|
    ensures forall k :: 0 <= k < |nodes| ==>
      Some(ExtractAll(nodes, replacements)[k].tag) == Rename(nodes[k].tag, replacements)
      && ExtractAll(nodes, replacements)[k].text == nodes[k].text
  {
    if nodes != [] {
      var init := nodes[..|nodes| - 1];
      assert forall k :: 0 <= k < |init| ==> init[k] == nodes[k];
      ExtractAllTagged(init, replacements);
    }
  }

  /** The top-level nodes with the replacement table applied to their own tags. */
  function RenameTop(nodes: seq<Node>, replacements: map<string, string>): (r: seq<Node>)
    ensures |r| == |nodes|
  {
    if nodes == [] then []
    else
      var n := nodes[|nodes| - 1];
      RenameTop(nodes[..|nodes| - 1], replacements) + [n.(tag := Rename(n.tag, Some(replacements)))]
  }

  /** Replacements act on the top-level nodes only: extracting with the table is the same as
      renaming the top-level nodes and extracting without it. Spliced records of untagged
      top-level nodes and all deeper records keep their tags. */
  lemma {:induction false} ExtractRenamesTopOnly(nodes: seq<Node>, replacements: map<string, string>)
    ensures ExtractAll(nodes, Some(replacements)) == ExtractAll(RenameTop(nodes, replacements), None)
  {
    if nodes != [] {
      var init := nodes[..|nodes| - 1];
      ExtractRenamesTopOnly(init, replacements);
      var renamed := RenameTop(nodes, replacements);
      assert renamed[..|renamed| - 1] == RenameTop(init, replacements);
    }
  }

  /** Text and children are exclusive render sources: a record with a text has no children,
      at every depth. */
  predicate WellFormed(elements: seq<Element>)
  {
    forall i :: 0 <= i < |elements| ==>
      (elements[i].text.Some? ==> elements[i].children == []) && WellFormed(elements[i].children)
  }

  lemma WellFormedAppend(a: seq<Element>, b: seq<Element>)
    requires WellFormed(a) && WellFormed(b)
    ensures WellFormed(a + b)
  {
    forall i | 0 <= i < |a + b|
      ensures ((a + b)[i].text.Some? ==> (a + b)[i].children == []) && WellFormed((a + b)[i].children)
    {
      if i < |a| {
        assert (a + b)[i] == a[i];
      } else {
        assert (a + b)[i] == b[i - |a|];
      }
    }
  }

  lemma {:induction false} ExtractAllWellFormed(nodes: seq<Node>, replacements: Option<map<string, string>>)
    ensures WellFormed(ExtractAll(nodes, replacements))
    decreases nodes, 1
  {
    if nodes != [] {
      ExtractAllWellFormed(nodes[..|nodes| - 1], replacements);
      ExtractNodeWellFormed(nodes[|nodes| - 1], replacements);
      WellFormedAppend(ExtractAll(nodes[..|nodes| - 1], replacements),
                       ExtractNode(nodes[|nodes| - 1], replacements));
    }
  }

  lemma {:induction false} ExtractNodeWellFormed(node: Node, replacements: Option<map<string, string>>)
    ensures WellFormed(ExtractNode(node, replacements))
    decreases node
  {
    if |node.elements| > 0 {
      ExtractAllWellFormed(node.elements, None);
    }
    var tag := Rename(node.tag, replacements);
    if tag.Some? {
      var r := ExtractNode(node, replacements);
      assert |r| == 1 && r[0].children == (if node.text.None? && |node.elements| > 0 then ExtractAll(node.elements, None) else []);
      assert WellFormed(r[0].children);
    }
  }

  /** Every tag of a record, at any depth. */
  function ElementTags(elements: seq<Element>): set<string>
  {
    if elements == [] then {}
    else
      var e := elements[|elements| - 1];
      ElementTags(elements[..|elements| - 1]) + {e.tag} + ElementTags(e.children)
  }

  lemma {:induction false} ElementTagsAppend(a: seq<Element>, b: seq<Element>)
    ensures ElementTags(a + b) == ElementTags(a) + ElementTags(b)
    decreases |b|
  {
    if b == [] {
      assert a + b == a;
    } else {
      var init := b[..|b| - 1];
      assert (a + b)[..|a + b| - 1] == a + init;
      ElementTagsAppend(a, init);
    }
  }

  /** The tags a replacement table can introduce. */
  function Introduced(replacements: Option<map<string, string>>): set<string>
  {
    if replacements.Some? then replacements.value.Values else {}
  }

  /** Extraction invents no tags: every tag of a record is a tag of some node of the tree, or
      one the replacement table maps a tag to. */
  lemma {:induction false} ExtractAllTags(nodes: seq<Node>, replacements: Option<map<string, string>>)
    ensures ElementTags(ExtractAll(nodes, replacements)) <= TagsOf(nodes) + Introduced(replacements)
    decreases nodes, 1
  {
    if nodes != [] {
      var init := nodes[..|nodes| - 1];
      ExtractAllTags(init, replacements);
      ExtractNodeTags(nodes[|nodes| - 1], replacements);
      ElementTagsAppend(ExtractAll(init, replacements), ExtractNode(nodes[|nodes| - 1], replacements));
    }
  }

  lemma {:induction false} ExtractNodeTags(node: Node, replacements: Option<map<string, string>>)
    ensures ElementTags(ExtractNode(node, replacements)) <= NodeTags(node) + Introduced(replacements)
    decreases node
  {
    ExtractAllTags(node.elements, None);
    var tag := Rename(node.tag, replacements);
    var children := if (tag.None? || node.text.None?) && |node.elements| > 0
                    then ExtractAll(node.elements, None) else [];
    assert ElementTags(children) <= TagsOf(node.elements);
    if tag.Some? {
      var e := Element(tag.value, node.text, children, node.attributes, node.options);
      assert ExtractNode(node, replacements) == [e];
      assert [e][..0] == [];
      assert ElementTags([e]) == {} + {e.tag} + ElementTags(children);
      if replacements.Some? && node.tag.value in replacements.value {
        assert tag.value in replacements.value.Values;
      }
    }
  }

  // ---------------------------------------------------------------------------------------
  // Page content

  /** The page content is empty exactly when the tree yields no top-level record. */
  lemma ContentEmpty(structure: Node, heading: string)
    ensures HtmlPage(structure, Some(heading)).Success?
    ensures HtmlPage(structure, Some(heading)).value.content == ""
        <==> ExtractAll(structure.elements, Some(Replacements)) == []
  {
    JoinLinesEnds(TopBlocks(ExtractAll(structure.elements, Some(Replacements))));
  }
}
