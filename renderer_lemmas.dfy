/** Properties of the older renderer, and how it relates to the transform that replaced it:
    both extract the same tree shape, and they render the same HTML for elements without
    attributes and options as long as no `text` leaf is involved. */
module RendererLemmas {
  import opened Wrappers
  import opened Strings
  import opened ParseTree
  import R = Renderer
  import T = Transform

  // ---------------------------------------------------------------------------------------
  // Layout

  /** A block without children shows its text between its tags, exactly as the item for the
      same tag and text does. */
  lemma LeafBlockIsItem(tag: string, text: string, nesting: nat)
    ensures R.Block(tag, [], Some(text), nesting) == Indent(nesting) + R.RenderItem(tag, text, true)
  {
    R.BlockPieces(tag, [], Some(text), nesting);
    var i := Indent(nesting);
    assert i + ("<" + tag + ">") + text + "" + "" + ("</" + tag + ">")
        == i + ("<" + tag + ">" + text + "</" + tag + ">");
  }

  /** The children in order, each rendered plainly, with nothing between them. */
  function Flat(elements: seq<R.Element>, nesting: nat): string
  {
    if elements == [] then ""
    else Flat(elements[..|elements| - 1], nesting) + R.Plain(elements[|elements| - 1], nesting)
  }

  lemma {:induction false} NestedChildren(elements: seq<R.Element>, k: nat, nesting: nat)
    requires k <= |elements| && nesting != 1
    ensures R.Children(elements, k, nesting) == Flat(elements[..k], nesting)
  {
    if k > 0 {
      NestedChildren(elements, k - 1, nesting);
      assert elements[..k][..k - 1] == elements[..k - 1];
      var done := R.Children(elements, k - 1, nesting);
      assert done + "" + "" == done;
    }
  }

  /** Below level 1 a block inserts neither line breaks nor indents: its children follow its
      opening tag and each other directly. */
  lemma NestedBlock(tag: string, elements: seq<R.Element>, text: Option<string>, nesting: nat)
    requires nesting != 1
    ensures R.Block(tag, elements, text, nesting)
         == Indent(nesting) + ("<" + tag + ">") + R.LeafText(elements, text) + Flat(elements, nesting)
            + ("</" + tag + ">")
  {
    R.BlockPieces(tag, elements, text, nesting);
    NestedChildren(elements, |elements|, nesting);
    assert elements[..|elements|] == elements;
    var front := Indent(nesting) + ("<" + tag + ">") + R.LeafText(elements, text) + Flat(elements, nesting);
    assert front + "" == front;
  }

  /** The children of a level-1 block, each on a line of its own, leaves indented one level
      deeper than the block. */
  function Lines(elements: seq<R.Element>): string
  {
    if elements == [] then ""
    else
      var e := elements[|elements| - 1];
      Lines(elements[..|elements| - 1]) + "\n" + (if R.IsLeaf(e) then Indent(2) else "") + R.Plain(e, 1)
  }

  lemma {:induction false} LevelOneChildren(elements: seq<R.Element>, k: nat)
    requires k <= |elements|
    ensures R.Children(elements, k, 1) == Lines(elements[..k])
  {
    if k > 0 {
      LevelOneChildren(elements, k - 1);
      assert elements[..k][..k - 1] == elements[..k - 1];
    }
  }

  /** A level-1 block with children: every child on a new line, leaves indented by two
      levels, and the closing tag on a line of its own at the block's indent. */
  lemma LevelOneBlock(tag: string, elements: seq<R.Element>, text: Option<string>)
    requires elements != []
    ensures R.Block(tag, elements, text, 1)
         == Indent(1) + ("<" + tag + ">") + Lines(elements) + "\n" + Indent(1) + ("</" + tag + ">")
  {
    R.BlockPieces(tag, elements, text, 1);
    LevelOneChildren(elements, |elements|);
    assert elements[..|elements|] == elements;
    var front := Indent(1) + ("<" + tag + ">");
    assert front + "" == front;
    Append(front + Lines(elements), "\n", Indent(1));
  }

  // ---------------------------------------------------------------------------------------
  // The renderer and the transform

  /** A transform record with its attributes and options dropped. */
  function Project(e: T.Element): R.Element
    decreases e
  {
    R.Element(e.tag, e.text, ProjectAll(e.children))
  }

  function ProjectAll(elements: seq<T.Element>): (r: seq<R.Element>)
    ensures |r| == |elements|
    decreases elements, 1
  {
    if elements == [] then []
    else ProjectAll(elements[..|elements| - 1]) + [Project(elements[|elements| - 1])]
  }

  lemma {:induction false} ProjectAllAppend(a: seq<T.Element>, b: seq<T.Element>)
    ensures ProjectAll(a + b) == ProjectAll(a) + ProjectAll(b)
    decreases |b|
  {
    if b == [] {
      assert a + b == a;
    } else {
      var init := b[..|b| - 1];
      assert (a + b)[..|a + b| - 1] == a + init;
      ProjectAllAppend(a, init);
    }
  }

  /** Both revisions extract the same tree: the renderer's triples are the transform's
      records without attributes and options. */
  lemma {:induction false} ExtractAgrees(nodes: seq<Node>, replacements: Option<map<string, string>>)
    ensures R.ExtractAll(nodes, replacements) == ProjectAll(T.ExtractAll(nodes, replacements))
    decreases nodes, 1
  {
    if nodes != [] {
      var init := nodes[..|nodes| - 1];
      ExtractAgrees(init, replacements);
      ExtractNodeAgrees(nodes[|nodes| - 1], replacements);
      ProjectAllAppend(T.ExtractAll(init, replacements), T.ExtractNode(nodes[|nodes| - 1], replacements));
    }
  }

  lemma {:induction false} ExtractNodeAgrees(node: Node, replacements: Option<map<string, string>>)
    ensures R.ExtractNode(node, replacements) == ProjectAll(T.ExtractNode(node, replacements))
    decreases node
  {
    ExtractAgrees(node.elements, None);
    var tag := Rename(node.tag, replacements);
    if tag.Some? {
      var children := if (tag.None? || node.text.None?) && |node.elements| > 0
                      then T.ExtractAll(node.elements, None) else [];
      var e := T.Element(tag.value, node.text, children, node.attributes, node.options);
      assert T.ExtractNode(node, replacements) == [e];
      assert [e][..0] == [];
      assert ProjectAll([e]) == [] + [Project(e)];
    }
  }

  /** A renderer triple as a transform record without attributes and options. */
  function Lift(e: R.Element): T.Element
    decreases e
  {
    T.Element(e.tag, e.text, LiftAll(e.children), [], map[])
  }

  function LiftAll(elements: seq<R.Element>): (r: seq<T.Element>)
    ensures |r| == |elements|
    ensures forall i :: 0 <= i < |elements| ==> r[i] == Lift(elements[i])
    decreases elements, 1
  {
    if elements == [] then []
    else LiftAll(elements[..|elements| - 1]) + [Lift(elements[|elements| - 1])]
  }

  /** Lifting loses nothing: dropping the empty attributes and options again gives back the
      triples. */
  lemma {:induction false} ProjectLiftAll(elements: seq<R.Element>)
    ensures ProjectAll(LiftAll(elements)) == elements
    decreases elements, 1
  {
    if elements != [] {
      var init := elements[..|elements| - 1];
      var last := elements[|elements| - 1];
      ProjectLiftAll(init);
      ProjectLift(last);
      var lifted := LiftAll(elements);
      assert lifted[..|lifted| - 1] == LiftAll(init);
      assert elements == init + [last];
    }
  }

  lemma {:induction false} ProjectLift(e: R.Element)
    ensures Project(Lift(e)) == e
    decreases e
  {
    ProjectLiftAll(e.children);
  }

  /** No record, at any depth, has attributes or options. */
  predicate Bare(elements: seq<T.Element>)
  {
    forall i :: 0 <= i < |elements| ==>
      elements[i].attributes == [] && elements[i].options == map[] && Bare(elements[i].children)
  }

  /** Conversely, records without attributes and options lose nothing when they are dropped:
      lifting the triples back gives the records. */
  lemma {:induction false} LiftProjectAll(elements: seq<T.Element>)
    requires Bare(elements)
    ensures LiftAll(ProjectAll(elements)) == elements
    decreases elements, 1
  {
    if elements != [] {
      var init := elements[..|elements| - 1];
      var last := elements[|elements| - 1];
      assert forall i :: 0 <= i < |init| ==> init[i] == elements[i];
      LiftProjectAll(init);
      LiftProject(last);
      var projected := ProjectAll(elements);
      assert projected[..|projected| - 1] == ProjectAll(init);
      assert elements == init + [last];
    }
  }

  lemma {:induction false} LiftProject(e: T.Element)
    requires e.attributes == [] && e.options == map[] && Bare(e.children)
    ensures Lift(Project(e)) == e
    decreases e
  {
    LiftProjectAll(e.children);
  }

  /** No leaf at any depth has the tag `text`. */
  predicate NoTextLeaf(elements: seq<R.Element>)
  {
    forall i :: 0 <= i < |elements| ==>
      !(R.IsLeaf(elements[i]) && elements[i].tag == "text") && NoTextLeaf(elements[i].children)
  }

  /** Without `text` leaves, the renderer lays a block out exactly as the transform does with
      no attributes and the default options. */
  lemma {:induction false} SameBlock(tag: string, elements: seq<R.Element>, text: Option<string>, nesting: nat)
    requires NoTextLeaf(elements)
    ensures T.Block(tag, LiftAll(elements), text, [], map[], nesting) == R.Block(tag, elements, text, nesting)
    decreases elements, 1
  {
    var lifted := LiftAll(elements);
    assert T.Indentation(map[]) && !T.OnlyOuterLinebreaks(map[]);
    SameChildren(elements, |elements|, nesting);
    assert T.LeafText(lifted, text) == R.LeafText(elements, text);
    T.BlockPieces(tag, lifted, text, [], map[], nesting);
    R.BlockPieces(tag, elements, text, nesting);
    assert T.OpenTag(tag, []) == "<" + tag + ">" by {
      assert "<" + tag + "" == "<" + tag;
    }
  }

  lemma {:induction false} SameChildren(elements: seq<R.Element>, k: nat, nesting: nat)
    requires k <= |elements| && NoTextLeaf(elements)
    ensures T.Children(LiftAll(elements), k, nesting == 1, false, nesting) == R.Children(elements, k, nesting)
    decreases elements, 0, k
  {
    if k > 0 {
      var lifted := LiftAll(elements);
      SameChildren(elements, k - 1, nesting);
      SamePlain(elements[k - 1], nesting);
      assert T.IsLeaf(lifted[k - 1]) == R.IsLeaf(elements[k - 1]);
      assert T.Linebreak(k - 1, nesting == 1, false) == R.Linebreak(nesting);
      assert T.Lead(lifted, k - 1, nesting == 1, false, nesting) == R.Lead(elements[k - 1], nesting);
    }
  }

  lemma {:induction false} SamePlain(e: R.Element, nesting: nat)
    requires !(R.IsLeaf(e) && e.tag == "text") && NoTextLeaf(e.children)
    ensures T.Plain(Lift(e), nesting) == R.Plain(e, nesting)
    decreases e.children, 2
  {
    if R.IsLeaf(e) {
      assert T.OpenTag(e.tag, []) == "<" + e.tag + ">" by {
        assert "<" + e.tag + "" == "<" + e.tag;
      }
    } else {
      SameBlock(e.tag, e.children, e.text, nesting + 1);
    }
  }

  /** Without `text` leaves, the renderer's top-level blocks are the transform's for the
      same triples lifted to records. */
  lemma {:induction false} SameTopBlocks(elements: seq<R.Element>)
    requires NoTextLeaf(elements)
    ensures T.TopBlocks(LiftAll(elements)) == R.TopBlocks(elements)
  {
    if elements != [] {
      var init := elements[..|elements| - 1];
      var e := elements[|elements| - 1];
      assert forall i :: 0 <= i < |init| ==> init[i] == elements[i];
      SameTopBlocks(init);
      SameBlock(e.tag, e.children, e.text, 1);
      var lifted := LiftAll(elements);
      assert lifted[..|lifted| - 1] == LiftAll(init);
    }
  }

  /** For a parse tree whose extracted records carry no attributes or options and no `text`
      leaf, both revisions produce the same HTML content under the same table of
      replacements. */
  lemma SameContent(nodes: seq<Node>, replacements: Option<map<string, string>>)
    requires Bare(T.ExtractAll(nodes, replacements))
    requires NoTextLeaf(R.ExtractAll(nodes, replacements))
    ensures JoinLines(T.TopBlocks(T.ExtractAll(nodes, replacements)))
         == JoinLines(R.TopBlocks(R.ExtractAll(nodes, replacements)))
  {
    var records := T.ExtractAll(nodes, replacements);
    ExtractAgrees(nodes, replacements);
    LiftProjectAll(records);
    SameTopBlocks(ProjectAll(records));
  }

  /** The one difference in leaf rendering: the renderer puts a space before a `text` leaf, the
      transform writes its text bare. */
  lemma TextLeafSpacing(text: string, nesting: nat)
    ensures R.Plain(R.Element("text", Some(text), []), nesting)
         == " " + T.Plain(Lift(R.Element("text", Some(text), [])), nesting)
  {
  }
}
