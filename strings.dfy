/** String building blocks shared by both HTML back ends. */
module Strings {

  /** `TAB_SEP`: one level of indentation is four spaces. */
  const TabSep: string := "    "

  /** `nesting * TAB_SEP`: `n` levels of indentation. */
  function Indent(n: nat): (r: string)
    ensures |r| == 4 * n
    ensures forall k :: 0 <= k < |r| ==> r[k] == ' '
  {
    if n == 0 then "" else Indent(n - 1) + TabSep
  }

  /** The blocks in order, with a single line break between consecutive blocks and none
      before the first or after the last. */
  function JoinLines(blocks: seq<string>): string
  {
    if |blocks| == 0 then ""
    else if |blocks| == 1 then blocks[0]
    else JoinLines(blocks[..|blocks| - 1]) + "\n" + blocks[|blocks| - 1]
  }

  /** Joining non-empty blocks gives the empty string exactly when there are no blocks;
      otherwise the result starts with the first block and ends with the last one. */
  lemma {:induction false} JoinLinesEnds(blocks: seq<string>)
    requires forall i :: 0 <= i < |blocks| ==> blocks[i] != ""
    ensures JoinLines(blocks) == "" <==> blocks == []
    ensures blocks != [] ==>
      && |blocks[0]| <= |JoinLines(blocks)|
      && JoinLines(blocks)[..|blocks[0]|] == blocks[0]
      && JoinLines(blocks)[|JoinLines(blocks)| - |blocks[|blocks| - 1]|..] == blocks[|blocks| - 1]
  {
    if |blocks| > 1 {
      var init := blocks[..|blocks| - 1];
      JoinLinesEnds(init);
      assert init[0] == blocks[0];
      var j := JoinLines(init);
      assert JoinLines(blocks) == j + "\n" + blocks[|blocks| - 1];
      assert (j + "\n" + blocks[|blocks| - 1])[..|blocks[0]|] == j[..|blocks[0]|];
    }
  }

  /** Re-associating three pieces. */
  lemma Append(a: string, b: string, c: string)
    ensures a + (b + c) == a + b + c
  {
  }

  /** A concatenation starts with its first piece and ends with its last. */
  lemma Affixes(first: string, b: string, c: string, d: string, last: string)
    ensures var r := first + b + c + d + last;
      && |first| + |last| <= |r|
      && r[..|first|] == first
      && r[|r| - |last|..] == last
  {
  }

  // ---------------------------------------------------------------------------------------
  // Regrouping concatenations

  /** A block's pieces with its opening and closing tag as units. */
  lemma RegroupTags(indent: string, tag: string, attrs: string, leaf: string, children: string, tail: string)
    ensures indent + "<" + tag + attrs + ">" + leaf + children + tail + "</" + tag + ">"
         == indent + ("<" + tag + attrs + ">") + leaf + children + tail + ("</" + tag + ">")
  {
  }

  /** The same for a block whose tag has no attributes. */
  lemma RegroupBareTags(indent: string, tag: string, leaf: string, children: string, tail: string)
    ensures indent + "<" + tag + ">" + leaf + children + tail + "</" + tag + ">"
         == indent + ("<" + tag + ">") + leaf + children + tail + ("</" + tag + ">")
  {
  }

  /** The pieces appended for one child: a line break, a lead and the child itself. */
  lemma AppendStep(head: string, done: string, linebreak: string, lead: string, child: string)
    ensures head + (done + linebreak + lead + child) == head + done + linebreak + lead + child
    ensures head + (done + linebreak + "" + child) == head + done + linebreak + child
  {
  }

  /** Dropping the empty children and closing part of a block without children. */
  lemma Tighten(indent: string, open: string, text: string, close: string)
    ensures indent + open + text + "" + "" + close == indent + (open + text + close)
    ensures indent + open + "" + "" + "" + close == indent + open + close
  {
  }

  /** A child appended after an indent that came earlier. */
  lemma ExtendEarlier(front: string, indent: string, back: string, child: string)
    ensures "\n" + (front + indent + back) + "" + "" + child == "\n" + (front + indent + (back + child))
  {
  }

  /** A child appended with an indent, after the line break of the first child. */
  lemma ExtendFirst(nl: string, front: string, linebreak: string, indent: string, child: string)
    requires (nl == "" && front == "" && linebreak == "\n") || (nl == "\n" && linebreak == "")
    ensures nl + front + linebreak + indent + child == "\n" + (front + indent + ("" + child))
  {
  }

  /** A child appended without an indent, after the line break of the first child. */
  lemma ExtendNone(nl: string, front: string, linebreak: string, child: string)
    requires (nl == "" && front == "" && linebreak == "\n") || (nl == "\n" && linebreak == "")
    ensures nl + front + linebreak + "" + child == "\n" + (front + child)
  {
  }

  /** Reading off one branch of a conditional concatenation. */
  lemma PickBranch(children: string, none: bool, leaf: bool, indented: string, flat: string)
    requires children == (if none then "" else "\n") + (if leaf then indented else flat)
    ensures leaf ==> children == (if none then "" else "\n") + indented
    ensures !leaf ==> children == (if none then "" else "\n") + flat
  {
  }

  /** A middle part and a close, each after a line break. */
  lemma LinesAround(front: string, middle: string, indent: string, close: string)
    ensures front + ("\n" + middle) + ("\n" + indent) + close == front + "\n" + middle + "\n" + indent + close
  {
  }
}
