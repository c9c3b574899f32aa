# markdown-parser in Dafny

This project models the core of `twomartens/markdown`, a small Markdown-to-HTML converter. It
has three parts.

- **The grammar** (`grammars.py`). The model is a deterministic, line-based recogniser.
  - A document is a sequence of lines.
  - Every repetition is greedy.
  - Every `OR` takes the first alternative that matches, in the order the grammar declares.
  - Each grammar rule builds the parse node that its `grammar_elem_init` annotates: the tag
    (`h1`…`h6`, `unordered_list`, `ordered_list`, `li`, `quote`, `p`, `b`, `i`, `code`,
    `text`) and the text (the heading text, the joined quote, the inline text).
- **The HTML transform** (`transform.py`). It has three steps.
  - `_extract_elements` flattens the annotated parse tree into element records
    `(tag, text, children, attributes, options)`.
  - `_html_build_block`, `_html_build_item` and `_html_build_attributes` render each record as
    indented HTML. Two per-element flags control the layout: `indentation` and
    `onlyOuterLinebreaks`.
  - `_html_transform` joins the top-level blocks into the page content. `transform` chooses
    the back end by format name.
- **The older renderer** (`renderer.py`). It is the same pipeline over triples
  `(tag, text, children)`, with a fixed level-1 layout. It writes a `text` leaf after a single
  space.

Files:
- `wrappers.dfy`: `Option` and `Result`.
- `strings.dfy`: indentation (`TAB_SEP`) and line joining.
- `parse_tree.dfy`: the annotated parse tree.
- `transform.dfy` and `transform_lemmas.dfy`: the transform and the proofs about it.
- `renderer.dfy` and `renderer_lemmas.dfy`: the renderer, and how it relates to the transform.
- `grammars.dfy` and `grammar_lemmas.dfy`: the grammar, and the proofs about it.

The source's loops are Dafny methods with loop invariants. Each method is proved equal to a
declarative function:
- `BuildBlock` with its line-break and indent counters;
- `BuildAttributes`;
- both versions of `ExtractElements`;
- the content join loops;
- the loop of `Quote.grammar_elem_init`.

The properties are lemmas about those functions.

A Python attribute that a grammar node does not have is `None` (or an empty dictionary) in the
parse tree. Options are a `map<string, bool>`, which the source only reads. Attributes are a
sequence of pairs, because their order shows in the output.

## Model

| member | source | states |
|---|---|---|
| Strings.Indent | twomartens/markdown/transform.py:25 | `n` levels of indentation are exactly `4 * n` characters (`TAB_SEP` is four spaces) |
| Strings.JoinLinesEnds | twomartens/markdown/transform.py:57-60 | joining non-empty blocks with single line breaks is empty exactly when there are no blocks, and otherwise starts with the first block and ends with the last (no leading or trailing separator) |
| Transform.MergeOptions | twomartens/markdown/transform.py:84-85 | the merged options have every default key and every supplied key; supplied keys keep their value, and a default key that is not supplied keeps the default |
| Transform.MergeOptionsIdempotent | twomartens/markdown/transform.py:92 | merging the defaults into already-merged options changes nothing |
| TransformLemmas.EffectiveOptions | twomartens/markdown/transform.py:84-85 | the effective `indentation` is on unless the element sets it to false; `onlyOuterLinebreaks` is on only when the element sets it to true |
| Transform.Attributes | twomartens/markdown/transform.py:130-144 | the serialised attributes are empty exactly when there are none, and otherwise begin with a space |
| Transform.BuildAttributes | twomartens/markdown/transform.py:130-144 | the loop that puts a space between pairs and one before the whole list yields the serialisation `Attributes`: the `name="value"` pairs in order |
| TransformLemmas.AttributesAppend | twomartens/markdown/transform.py:136-142 | every further attribute adds exactly one space and its `name="value"` pair at the end: the order is kept and the separators are single spaces |
| Transform.BuildItem | twomartens/markdown/transform.py:113-127 | an item with tags is the opening tag with its attributes, the text and the closing tag; without tags it is the bare text |
| TransformLemmas.LeafBlockIsItem | twomartens/markdown/transform.py:86-127 | a block without children but with text is the indent followed by the item the item builder makes from the same tag, text and attributes: opening tag, text, closing tag |
| TransformLemmas.EmptyBlock | twomartens/markdown/transform.py:86-109 | a block with neither children nor text is its indent, opening tag and closing tag, whatever its options |
| Transform.BlockShape | twomartens/markdown/transform.py:86-109 | every block starts with `nesting` indents and the opening tag with its attributes, and ends with its closing tag |
| Transform.BuildBlock | twomartens/markdown/transform.py:66-110 | the loop, with its line-break and indent counters, builds exactly the declarative block layout `Block` |
| Transform.BuildChild | twomartens/markdown/transform.py:97-106 | a leaf child is built as an item, bare when its tag is `text`, and any other child as a block one level deeper under its own options merged with the defaults |
| Transform.BlockMergedOptions | twomartens/markdown/transform.py:92-106 | handing a child its options with the defaults already merged in renders the same block as its own options |
| TransformLemmas.UnindentedChildren | twomartens/markdown/transform.py:93-103 | a block that does not indent inserts neither line breaks nor indents between its children: they follow each other directly |
| TransformLemmas.UnindentedBlock | twomartens/markdown/transform.py:93-108 | a block that is nested, or has `indentation` off, is its indent, opening tag, leaf text, children directly after each other, and closing tag; any other line breaks come from inside the children |
| TransformLemmas.NestedBlockIgnoresOptions | twomartens/markdown/transform.py:93-108 | below level 1 the options of a block make no difference to its output |
| TransformLemmas.FirstLeafIsFirst | twomartens/markdown/transform.py:99-103 | `FirstLeaf` is the index of the first leaf child, or the number of children when there is no leaf |
| TransformLemmas.OnlyOuterChildren | twomartens/markdown/transform.py:93-103 | at level 1 with `onlyOuterLinebreaks`, the children get exactly one line break, before the first child, and exactly one indent, before the first leaf child, or none when there is no leaf |
| TransformLemmas.OnlyOuterBlock | twomartens/markdown/transform.py:86-109 | the whole level-1 block with `onlyOuterLinebreaks`: one line break after the opening tag, the children directly after each other with one indent before the first leaf, then a line break, the indent and the closing tag |
| Transform.ExtractElements | twomartens/markdown/transform.py:147-172 | the loop yields `ExtractAll`: records in node order; a tagged node becomes one record; an untagged node's records are spliced in its place; a node with neither tag nor records is dropped; children are not extracted for a node with both tag and text |
| TransformLemmas.ExtractAppend | twomartens/markdown/transform.py:157-170 | extraction is compositional and keeps order: the records of `a + b` are those of `a` followed by those of `b` |
| Transform.ExtractNode | twomartens/markdown/transform.py:157-170 | a node that keeps a tag becomes exactly one record with the renamed tag, its text, attributes and options, and no children when it has a text |
| TransformLemmas.ExtractAllTagged | twomartens/markdown/transform.py:157-172 | a forest whose nodes all keep a tag gives one record per node, in order, with the renamed tag and the node's text |
| TransformLemmas.ExtractRenamesTopOnly | twomartens/markdown/transform.py:163-166 | the replacement table applies only to the tags of the top-level nodes; the recursive calls run without it |
| TransformLemmas.ExtractAllWellFormed | twomartens/markdown/transform.py:165-166 | no extracted record, at any depth, has both a text and children |
| TransformLemmas.ExtractAllTags | twomartens/markdown/transform.py:158-164 | extraction invents no tag: every record tag is a node tag of the tree or a value of the replacement table |
| Transform.TopBlocks | twomartens/markdown/transform.py:57-60 | every top-level record gives one level-1 block, and none of the blocks is empty |
| Transform.HtmlContent | twomartens/markdown/transform.py:57-60 | the join loop places a single line break between consecutive top-level blocks and none before the first |
| TransformLemmas.ContentEmpty | twomartens/markdown/transform.py:37-63 | with a heading, the page is built, and its content is empty exactly when the tree has no top-level record |
| Transform.HtmlTransform | twomartens/markdown/transform.py:37-63 | `_html_transform` up to the template: renames `unordered_list`, `quote` and `ordered_list`, extracts, joins the blocks, and takes the title from the first heading; it fails without a heading |
| Transform.FormatNamed | twomartens/markdown/transform.py:28-34 | a format name selects a transform exactly when it is `html` |
| Transform.Transform | twomartens/markdown/transform.py:28-34 | `html` dispatches to the HTML transform; any other name is an unknown-format error |
| Renderer.BlockShape | twomartens/markdown/renderer.py:52-68 | every rendered block starts with `nesting` indents and its opening tag, and ends with its closing tag |
| Renderer.RenderItem | twomartens/markdown/renderer.py:72-78 | an item with tags is the opening tag, the text and the closing tag; without tags it is the text after one space |
| RendererLemmas.LeafBlockIsItem | twomartens/markdown/renderer.py:51-78 | a block without children but with text is the indent, the opening tag, the text and the closing tag |
| Renderer.RenderBlock | twomartens/markdown/renderer.py:51-69 | the loop builds exactly the declarative renderer layout `Renderer.Block` |
| Renderer.RenderChild | twomartens/markdown/renderer.py:58-65 | a leaf child gets an indent at level 1 and is rendered as an item; any other child becomes a block one level deeper |
| RendererLemmas.NestedChildren | twomartens/markdown/renderer.py:55-65 | below level 1 the children follow each other with no line break or indent |
| RendererLemmas.NestedBlock | twomartens/markdown/renderer.py:51-69 | below level 1 a block is its indent, opening tag, leaf text, children directly after each other, and closing tag |
| RendererLemmas.LevelOneChildren | twomartens/markdown/renderer.py:55-63 | at level 1, exactly one line break comes before every child, and an indent two levels deep before every leaf |
| RendererLemmas.LevelOneBlock | twomartens/markdown/renderer.py:51-69 | a level-1 block with children is the opening tag, each child on a new line (leaves indented), then a line break, one indent and the closing tag |
| Renderer.ExtractElements | twomartens/markdown/renderer.py:81-97 | the loop yields the renderer's `ExtractAll`, with the same order, splicing, dropping and top-level-only renaming as the transform |
| Renderer.ExtractNode | twomartens/markdown/renderer.py:84-95 | a node that keeps a tag becomes exactly one triple with the renamed tag and its text, and no children when it has a text |
| RendererLemmas.ExtractAgrees | twomartens/markdown/renderer.py:81-97 | the renderer extracts exactly the transform's records with attributes and options dropped |
| RendererLemmas.ProjectLiftAll | twomartens/markdown/renderer.py:93 | a renderer triple lifted to a record without attributes and options, then projected back, is unchanged |
| RendererLemmas.LiftProjectAll | twomartens/markdown/renderer.py:93 | conversely, records without attributes and options are unchanged when projected to triples and lifted back |
| RendererLemmas.SameBlock | twomartens/markdown/renderer.py:51-69 | with no `text` leaf anywhere, the renderer's block is the transform's block with no attributes and the default options |
| RendererLemmas.TextLeafSpacing | twomartens/markdown/renderer.py:72-78 | the one difference in leaf output: the renderer writes a `text` leaf after a space, and the transform writes it bare |
| RendererLemmas.SameTopBlocks | twomartens/markdown/renderer.py:42-45 | with no `text` leaf anywhere, the renderer's top-level blocks are the transform's for the same elements |
| RendererLemmas.SameContent | twomartens/markdown/renderer.py:42-45 | for a tree whose records carry no attributes, options or `text` leaf, both revisions produce the same page content under the same replacement table |
| Renderer.TopBlocks | twomartens/markdown/renderer.py:42-45 | every top-level triple gives one non-empty level-1 block |
| Renderer.RenderContent | twomartens/markdown/renderer.py:42-45 | the join loop places a single line break between consecutive top-level blocks |
| Renderer.HtmlRender | twomartens/markdown/renderer.py:24-48 | `_html_render` up to the template: renames `list` and `quote`, extracts, joins the blocks, and takes the title from the first heading; it fails without a heading |
| Renderer.Render | twomartens/markdown/renderer.py:15-21 | `html` dispatches to the HTML renderer; any other name is an unknown-format error |
| Grammars.Span | twomartens/markdown/grammars.py:12-13 | the end of the longest run of characters of a class: the characters in the run are in the class, and the next one is not |
| GrammarLemmas.SpanExact | twomartens/markdown/grammars.py:28 | a run that ends at a character outside the class is the one `Span` finds |
| Grammars.MatchSimpleText | twomartens/markdown/grammars.py:12-18 | SimpleText is leading spaces and a word whose first character is not white space nor one of `#>*` and a backtick, and whose other characters are neither `*`, a backtick nor a line break; the match ends where the word can go no further; the tag is `text` and the text is the word without the spaces |
| Grammars.Delimited | twomartens/markdown/grammars.py:40-60 | a delimited match is the opening literal, a non-empty run of admissible characters that becomes the text, and the closing literal |
| GrammarLemmas.DelimitedMatch | twomartens/markdown/grammars.py:40-60 | conversely, opening literal, admissible text and closing literal are matched with exactly that text and length |
| Grammars.MatchInline | twomartens/markdown/grammars.py:94 | each inline match consumes at least one character |
| GrammarLemmas.InlineExclusive | twomartens/markdown/grammars.py:40-60 | at any position at most one of Bold, Italic and InlineCode matches, and SimpleText does not match where any of them does |
| GrammarLemmas.BoldFirst | twomartens/markdown/grammars.py:94 | `**x**` is one Bold node with text `x`, and Italic does not match it |
| GrammarLemmas.CodeMatch | twomartens/markdown/grammars.py:60-65 | a backquoted text is one `code` node with that text |
| GrammarLemmas.NoInlineAtMarker | twomartens/markdown/grammars.py:12-13 | no inline element starts at a `#` or a `>` |
| Grammars.Inlines | twomartens/markdown/grammars.py:94 | the repetition of inline elements stops only where no inline element matches, and it matched something exactly when it moved |
| Grammars.InlinesToEnd | twomartens/markdown/grammars.py:94 | inline elements that cover the rest of a line are none exactly when nothing of the line is left |
| Grammars.MatchBold | twomartens/markdown/grammars.py:40-45 | a Bold match is tagged `b`, makes progress, and spans `**`, its text and `**` |
| Grammars.MatchItalic | twomartens/markdown/grammars.py:50-55 | an Italic match is tagged `i`, makes progress, and spans `*`, its text and `*` |
| Grammars.MatchCode | twomartens/markdown/grammars.py:60-65 | an InlineCode match is tagged `code`, makes progress, and spans a backtick, its text and a backtick |
| GrammarLemmas.InlinesAtEnd | twomartens/markdown/grammars.py:94 | at the end of the line the repetition matches nothing |
| Grammars.Hashes | twomartens/markdown/grammars.py:28 | `Hashes(k)` is exactly `k` `#` characters |
| GrammarLemmas.HeadingRoundTrip | twomartens/markdown/grammars.py:28-35 | one to six `#`, a space and a text form a heading of that level, and the text is kept |
| Grammars.HeadingLine | twomartens/markdown/grammars.py:28-29 | every heading line is one to six `#`, a space and its text, which is the rest of the line |
| Grammars.HeadingTag | twomartens/markdown/grammars.py:35 | the heading tag is `h` followed by one or more decimal digits |
| GrammarLemmas.SevenHashesNoHeading | twomartens/markdown/grammars.py:28-29 | a line that starts with seven `#` is not a heading |
| Grammars.DecimalString | twomartens/markdown/grammars.py:35 | `str(n)` is a non-empty string of decimal digits |
| GrammarLemmas.DecimalRoundTrip | twomartens/markdown/grammars.py:35 | reading the digits of `str(n)` back gives `n` |
| GrammarLemmas.HeadingTagLevel | twomartens/markdown/grammars.py:35 | different levels give different heading tags, and a level below ten gives `h` followed by its digit |
| Grammars.IsEmptyLine | twomartens/markdown/grammars.py:23 | a line is an EmptyLine if and only if it holds nothing but spaces |
| GrammarLemmas.EmptyLineNoHeading | twomartens/markdown/grammars.py:23-28 | an empty line is never a heading line |
| Grammars.QuoteLine | twomartens/markdown/grammars.py:70-74 | a quote line is `>` followed by the quote line it keeps |
| GrammarLemmas.QuoteLineIff | twomartens/markdown/grammars.py:70-74 | a QuoteLine keeps `rest` if and only if the line is `>` followed by `rest` |
| Grammars.QuoteText | twomartens/markdown/grammars.py:81-88 | the initialiser's loop builds `QuoteJoin`: every quote line in order, each after one space |
| GrammarLemmas.QuoteJoinAppend | twomartens/markdown/grammars.py:84-85 | joining the quote lines of `a + b` is joining `a` followed by joining `b` |
| GrammarLemmas.QuoteJoinLength | twomartens/markdown/grammars.py:83-88 | the quote text is as long as the lines plus one space each, and starts with a space when there is a line |
| Grammars.UnorderedPrefix | twomartens/markdown/grammars.py:93 | an unordered marker is two characters, the second a space |
| GrammarLemmas.UnorderedPrefixIff | twomartens/markdown/grammars.py:93 | a line has an unordered list marker if and only if it starts with `* `, `- ` or `+ `, and the items follow after those two characters |
| Grammars.OrderedPrefix | twomartens/markdown/grammars.py:112-113 | an ordered marker is at least one digit and `. `, and lies within the line |
| GrammarLemmas.OrderedPrefixIff | twomartens/markdown/grammars.py:112-113 | the items of an ordered list line start at `p` if and only if the line begins with at least one digit followed by `. `, and that `. ` ends at `p` |
| Grammars.UnorderedItem | twomartens/markdown/grammars.py:91-94 | an unordered item line starts with an unordered marker and has at least one inline element after it (the item's repetition needs one) |
| Grammars.OrderedItem | twomartens/markdown/grammars.py:110-113 | an ordered item line has at least one inline element and so something after its marker |
| GrammarLemmas.EmptyItemNoItem | twomartens/markdown/grammars.py:94 | a marker with nothing after it, `- ` or `1. `, is no list item |
| Grammars.TextLine | twomartens/markdown/grammars.py:131 | a line of Text has at least one inline element and is not empty |
| GrammarLemmas.TextLineShape | twomartens/markdown/grammars.py:13-131 | a line of Text is not blank and starts with neither `#` nor `>` |
| Grammars.Run | twomartens/markdown/grammars.py:79 | a repetition over lines takes the longest run of lines the recogniser accepts, keeping what it made of each line |
| Grammars.OrderedRun | twomartens/markdown/grammars.py:122 | the items of an ordered list are the longest run of ordered item lines |
| Grammars.UnorderedRun | twomartens/markdown/grammars.py:103 | the items of an unordered list are the longest run of unordered item lines |
| Grammars.QuoteRun | twomartens/markdown/grammars.py:79 | a Quote takes the longest run of quote lines |
| Grammars.TextRun | twomartens/markdown/grammars.py:131-132 | a Text takes the longest run of lines covered by one or more inline elements |
| GrammarLemmas.MarkedLineNotText | twomartens/markdown/grammars.py:131-132 | a line that starts with `#` or `>` is never a line of Text |
| GrammarLemmas.EmptyLineNotText | twomartens/markdown/grammars.py:131-132 | an empty line is never a line of Text |
| Grammars.HeadingBlock | twomartens/markdown/grammars.py:26-35 | a Heading matches exactly when the line is a heading line, and it consumes exactly that one line |
| Grammars.ListBlock | twomartens/markdown/grammars.py:101-126 | a list matches exactly when an empty line is followed by at least one item line of its kind, and it consumes the empty line and the whole run of item lines |
| Grammars.QuoteBlock | twomartens/markdown/grammars.py:77-88 | a Quote matches exactly when the line starts with `>`, and it consumes the whole run of quote lines |
| Grammars.ParagraphStart | twomartens/markdown/grammars.py:137 | a Paragraph's Text lines start one line later exactly when its first line is an empty line (the leading `OPTIONAL(EmptyLine)`) |
| Grammars.ParagraphEnd | twomartens/markdown/grammars.py:137 | a Paragraph takes one more line after its Text lines exactly when there is one and it is an empty line (the trailing `OPTIONAL(EmptyLine)`) |
| Grammars.ParagraphBlock | twomartens/markdown/grammars.py:135-141 | after an optional empty line, a Paragraph matches exactly when at least one Text line follows; it consumes the optional empty line, the whole run of Text lines and, when one follows, one more empty line |
| Grammars.EmptyLineBlock | twomartens/markdown/grammars.py:21-23 | an EmptyLine block matches exactly when the line holds only spaces, and it consumes that one line |
| Grammars.MatchBlock | twomartens/markdown/grammars.py:146 | every block alternative, tried in the declared order, consumes at least one line |
| GrammarLemmas.HeadingLineFirst | twomartens/markdown/grammars.py:146 | a heading line is always parsed as a one-line Heading, whatever follows |
| GrammarLemmas.QuoteLineStartsQuote | twomartens/markdown/grammars.py:146 | a line starting with `>` always begins a Quote block |
| GrammarLemmas.TextLineStartsParagraph | twomartens/markdown/grammars.py:146 | a line of Text always begins a Paragraph, whatever follows |
| GrammarLemmas.EmptyLineStartsUnorderedList | twomartens/markdown/grammars.py:146 | an empty line before an unordered item line always begins an unordered list, which takes the whole run of items |
| GrammarLemmas.OrderedNotUnordered | twomartens/markdown/grammars.py:93-113 | a line with an ordered marker has no unordered marker, since it starts with a digit |
| GrammarLemmas.EmptyLineStartsOrderedList | twomartens/markdown/grammars.py:146 | an empty line before an ordered item line always begins an ordered list, which takes the whole run of items |
| GrammarLemmas.ItemLineA | twomartens/markdown/grammars.py:93-94 | `- a` is both an unordered item line (text `a`) and a Text line (text `- a`) |
| GrammarLemmas.ListBeforeParagraph | twomartens/markdown/grammars.py:101-146 | an empty line followed by `- a` could also be a Paragraph, but the declared order makes it an unordered list with one item `a` |
| GrammarLemmas.ListNeedsEmptyLine | twomartens/markdown/grammars.py:137-146 | without the empty line before it, `- a` is a Paragraph |
| Grammars.ParseBlocks | twomartens/markdown/grammars.py:146 | a parse yields at most one block per line, and a failure names a line of the document |
| GrammarLemmas.ParseBlocksOutcome | twomartens/markdown/grammars.py:146 | a successful parse has at most one block per line and at least one block when a line remains; a failure names a line at which no block starts |
| Grammars.ParseDocument | twomartens/markdown/grammars.py:144-147 | a parsed document has at least one line and is collapsed into one grouping node; a failure names a line, or the start of an empty document |
| GrammarLemmas.ParseDocumentOutcome | twomartens/markdown/grammars.py:146 | a document parses exactly when it has a line and its blocks cover every line; otherwise it fails at its start when empty, or at a line where no block starts |
| GrammarLemmas.MatchInlineTag | twomartens/markdown/grammars.py:15-65 | an inline element is tagged `b`, `i`, `code` or `text` |
| GrammarLemmas.LineTagged | twomartens/markdown/grammars.py:15-132 | every inline element of an item line or a Text line has an inline tag |
| GrammarLemmas.HeadingBlockTags | twomartens/markdown/grammars.py:35 | a Heading node is tagged `h` with its level, which is one of `h1` to `h6`, and carries no other tag |
| GrammarLemmas.ListBlockTags | twomartens/markdown/grammars.py:96-126 | a list node is tagged `unordered_list` or `ordered_list` after its kind and has no text, every item under it is tagged `li`, and below the items there are only inline tags |
| GrammarLemmas.ParagraphBlockTags | twomartens/markdown/grammars.py:141 | a Paragraph node is tagged `p`, has no text, and holds only inline tags below it |
| GrammarLemmas.QuoteBlockTags | twomartens/markdown/grammars.py:81-88 | a Quote node is tagged `quote`, its text is the join of its quote lines, and it carries no other tag |
| GrammarLemmas.MatchBlockTags | twomartens/markdown/grammars.py:146 | every block node holds only tags that the initialisers assign |
| GrammarLemmas.ParseDocumentTags | twomartens/markdown/grammars.py:15-151 | a parsed document holds only the initialisers' tags, and never the tag `list` |
| GrammarLemmas.RendererRenamesGrammarTags | twomartens/markdown/renderer.py:29 | on the grammar's tags the renderer's table renames only `quote` (to `blockquote`); its `list` entry never applies |
| GrammarLemmas.TransformRenamesGrammarTags | twomartens/markdown/transform.py:44 | on the grammar's tags the transform's table renames `quote`, `unordered_list` and `ordered_list` to `blockquote`, `ul` and `ol`, and keeps every other tag |

## Left out

- Template file and substitution: reading `templates/skeleton.html` and `string.Template.substitute` are file I/O and library code. `HtmlTransform` and `HtmlRender` stop at the page's title and its content string.
- Title lookup: `structure.find(Heading)` is a library tree search. It is a parameter, the text of the first Heading, or `None`. `None` is an error, because `heading.text` on `None` raises in the source.
- Format dispatch: the `globals().get(...)` dispatch is modelled as a closed set of formats. For an unknown name the source calls `None` and raises; the model returns `UnknownFormat`.
- Library internals: `modgrammar` is not part of this model. Its parsing engine, `ParseError` contents and whitespace mode are left out. `WORD` escapes and `fullmatch` are not modelled: a `WORD` is the longest run of admissible characters. `\s` is ASCII white space only. `modgrammar.SPACE` is taken to match the space character only, so a tab is not a space in `EmptyLine` or before a SimpleText.
- Line handling: `BOL`/`EOL`/`REST_OF_LINE` are modelled by splitting the input into lines in advance. The different line-break characters and splitting itself are not modelled.
- Backtracking: a repetition never gives back a match to let a later part succeed. `Grammars.MatchBlock` and `Grammars.ParseBlocks` take the first alternative that matches a whole block, and do not go back into an earlier block when a later one fails. One consequence: a Paragraph always takes an empty line that follows it, so the lines `x`, an empty line and `* a` fail at `* a`, where backtracking would give the empty line back to a list.
- Unparsed grammar nodes: literals, `BOL`/`EOL` and the `LIST_OF` separators are not kept in the parse tree at all. Untagged nodes are kept only as grouping nodes. Empty ones stand for every `EmptyLine`: a top-level one, a list's, and the two `OPTIONAL(EmptyLine)` of a Paragraph, matched or not. Non-empty ones stand for the document, the `LIST_OF` of a list, the repetition of each item and of each Text line, and the Text of a Paragraph. In both back ends the empty ones produce no elements, and the elements of the non-empty ones are spliced in their place.
- Grammar options: Paragraph (`twomartens/markdown/grammars.py:137-141`) sets only its tag, and no grammar rule sets `attributes` or `options`; the model does the same.
- Other constructs: `grammars.py` has no rule for links, automatic links, code or pre blocks, and no line joining after parsing. The model's Quote join is the code's: one space before each line, including the first.
- Lists after text: a list needs an empty line before it. Without one, a `-`, `+` or numbered item line is a line of Text and belongs to a Paragraph (`ListNeedsEmptyLine`). A line such as `* a` is no line of Text, because SimpleText cannot start with `*` and Italic finds no closing `*`. So `x` followed by `* a` fails at `* a`.
- Other files: `twomartens/markdown/parser.py` (a wrapper around the library parser), `markdown.py` (command-line handling) and `setup.py` (packaging) are not part of this model.
- Options as a map: options are a `map`. The identity of the Python dictionaries is not modelled, and neither is the merged dictionary the source builds for each child. Only its lookups are.
- Grammars.MatchInline: its own contract states only that it makes progress. What it matches is stated by `InlineExclusive`, `BoldFirst`, `CodeMatch` and the contracts of the single matchers.
