/** The annotated parse tree that the grammar produces and both HTML back ends consume.

    A grammar node may carry a `tag`, a `text`, an `attributes` dictionary (kept in insertion
    order) and an `options` dictionary; every node has a (possibly empty) sequence of matched
    sub-nodes in `elements`. An attribute the Python object does not have is `None` here, an
    absent dictionary is empty, and a sub-match that did not happen is an untagged node
    without elements. */
module ParseTree {
  import opened Wrappers

  datatype Node = Node(
    tag: Option<string>,
    text: Option<string>,
    attributes: seq<(string, string)>,
    options: map<string, bool>,
    elements: seq<Node>)

  /** An untagged grouping node: a repetition, a sequence or a grammar without a tag. */
  function Group(elements: seq<Node>): Node
  {
    Node(None, None, [], map[], elements)
  }

  /** A matched terminal (a literal, a line break, an unmatched optional part). */
  const Terminal: Node := Group([])

  /** Every tag carried by a node of the forest, at any depth. */
  function TagsOf(nodes: seq<Node>): set<string>
    decreases nodes, 1
  {
    if nodes == [] then {} else TagsOf(nodes[..|nodes| - 1]) + NodeTags(nodes[|nodes| - 1])
  }

  function NodeTags(node: Node): set<string>
    decreases node
  {
    (if node.tag.Some? then {node.tag.value} else {}) + TagsOf(node.elements)
  }

  /** A tag after the optional replacement table has been applied. */
  function Rename(tag: Option<string>, replacements: Option<map<string, string>>): Option<string>
  {
    if replacements.Some? && tag.Some? && tag.value in replacements.value
    then Some(replacements.value[tag.value]) else tag
  }
}
