# goldmark-gemtext in Dafny

A model of the core of goldmark-gemtext. The library turns a parsed Markdown
tree (goldmark's AST) into Gemtext, a line-based markup with one link per
line (`=> destination label`) and no inline formatting. The core has two
renderers, and the model covers both:

- **The standalone `Render`** (render.go) is one walk callback with a case
  per node kind and no configuration. It is module `Standalone`. Its
  link-only test (`isLinkOnly`) counts links and autolinks as links; wiki
  links are not links here.
- **The `GemRenderer`** (block.go, inline.go, extra.go) is configured by a
  `Config`. It has one handler per node kind, registered for the
  renderer's walk. It is modules `Block` (the walk, the dispatch and the
  block handlers), `Inline` and `Extra`. Its link-only test also counts
  wiki links.

Shared pieces:

- `Ast` holds the tree. Every node kind is a constructor, and every node
  has its `children`. A context `Ctx(parent, next)` stands for the
  `Parent()` and `NextSibling()` back-references the handlers consult.
  `Ast` also holds the link-only test, as a predicate and as the loop that
  computes it.
- `Bytes` holds the Go pieces the renderers lean on: `bytes.Buffer` as a
  class, `bytes.TrimSpace`, and `bytes.SplitAfter` on `'\n'`.
- `Gemtext` holds the line formats and the writers for them: heading
  markers, `>` quoting, list items with a two-space continuation indent,
  code fences and the thematic break.
- `Config` holds the configuration enums, the `Config` record, the
  defaults `New()` uses, and the collaborators whose code is not part of
  this model (`Env`).

Each renderer is specified twice:

- **As functions.** `Output(n, ctx)` is what rendering `n` appends. It is
  built the way goldmark's `ast.Walk` works: the entry step, then the
  children unless the entry step returned `WalkSkipChildren`, then the exit
  step. The exit step also runs after a skip.
- **As imperative methods.** These write to a `Buffer` step by step, as
  the Go code does. Each method's `ensures` ties the buffer's new contents
  to the function: `w.data == old(w.data) + Output(n, ctx)`. One place in
  the standalone renderer departs from render.go on purpose. The model uses
  the corrected autolink separator from "## Findings". The lemma
  `Standalone.ParagraphAsWritten` proves that the departure touches only
  paragraphs in which an autolink follows an earlier link line.

The lemmas then state what the renderers promise about `Output`: what each
kind renders to under each configuration, how link-only headings and
paragraphs turn into link lines, and that quoting and indenting can be read
back line by line.

## Model

| member | source | states |
|---|---|---|
| Ast.ScanLinkOnly | render.go:35-55 | the loop over the children returns true exactly when some child is a link and no child is a text with a non-empty segment; wiki links count as links only when asked |
| Ast.ScanParentLinkOnly | inline.go:15 | the parent test a leaf makes: true exactly when the node has a parent and that parent is link-only |
| Ast.LinkOnlyWithoutWiki | render.go:35-55 | with no wiki-link child, the standalone and configured link-only tests agree |
| Bytes.TrimLeftShape | block.go:95 | trimming the left keeps a suffix, drops only white space, and what is kept does not start with white space |
| Bytes.TrimRightShape | block.go:95 | trimming the right keeps a prefix, drops only white space, and what is kept does not end with white space |
| Bytes.TrimSpaceEnds | block.go:95 | `bytes.TrimSpace` leaves text that neither starts nor ends with white space |
| Bytes.TrimSpaceSlice | block.go:95 | the trimmed text is a slice of the input with only white space on either side |
| Bytes.TrimSpaceIdempotent | block.go:95 | trimming twice is trimming once |
| Bytes.SplitAfterShape | block.go:96 | `bytes.SplitAfter(s, "\n")` gives one or more pieces; all but the last end with their only newline, the last has none; joined, they give `s` back |
| Bytes.SplitAfterFlatten | block.go:96 | splitting the join of well-shaped lines gives those lines back (the inverse direction) |
| Bytes.IndexNewline | block.go:96 | the index of the first newline, or -1 when there is none |
| Bytes.Buffer.Write | block.go:98 | appends exactly its argument to the buffer |
| Bytes.Buffer.Reset | block.go:179 | empties the buffer |
| Gemtext.HeadingPrefix | block.go:33-40 | the marker is one, two or three `#` (three for every level above 2) followed by a space |
| Gemtext.QuotedLines | block.go:95-103 | read back line by line, a blockquote's text is its trimmed body's lines, each behind `>`; removing the marker gives each line back |
| Gemtext.UnquoteQuote | block.go:98-102 | `>`, then a space unless the line is blank or already quoted: removing the marker and that space gives the line back |
| Gemtext.QuoteEachKeepsShape | block.go:97-103 | quoting every piece keeps the line shape `SplitAfter` produced |
| Gemtext.WriteQuoted | block.go:95-103 | the quoting loop writes exactly the quoted lines of the trimmed body |
| Gemtext.WriteQuotedLines | block.go:97-103 | the loop over the lines writes each line's quoted form in order |
| Gemtext.WriteQuote | block.go:98-102 | one line: the marker, the optional space, the line |
| Gemtext.ListItemShape | block.go:176-192 | an item starts with `* ` and ends with a newline, or with a blank line in a loose list |
| Gemtext.ItemLines | block.go:178-187 | read back line by line, an item's text after `* ` is the trimmed body's lines; every line after the first is blank or starts with the two-space indent; removing the indent gives each line back |
| Gemtext.IndentedLines | block.go:182-187 | indenting well-shaped lines whose last piece is not empty (when there are several) gives lines that split back into themselves; every line after the first is blank or starts with the two-space indent; dedenting gives each line back |
| Gemtext.LastLineNonEmpty | block.go:178-181 | text that is empty or does not end in white space (as trimmed text is) splits so that, in two or more pieces, the last piece is not empty |
| Gemtext.ContinuationLine | block.go:183-185 | a continuation line is left alone when blank, otherwise indented by two spaces |
| Gemtext.WriteListItem | block.go:176-192 | writes exactly one item: `* `, the indented lines of the trimmed body, a newline, and a blank line in a loose list |
| Gemtext.WriteIndentedLines | block.go:182-187 | the loop writes each line, indented after the first unless blank |
| Gemtext.WriteIndented | block.go:183-186 | one line, with its indent when it needs one |
| Gemtext.ListItemsSnoc | block.go:167-193 | one more body adds its item at the end of the list text |
| Gemtext.Fence | block.go:117-125 | a fence is three backticks, the info string, a newline, the lines, three backticks (the length and each part stated) |
| Gemtext.WriteFence | block.go:136-148 | the fence loop writes exactly the fence of the info and lines |
| Gemtext.Dashes | render.go:242-244 | `k` characters, each a dash |
| Gemtext.WriteDashes | render.go:242-244 | the loop writes exactly `k` dashes (the thematic break asks for 80) |
| Config.Defaults | render_test.go:153 | the default configuration: Auto headings, double heading space, Below paragraphs, emphasis, strikethrough and code spans off, the default rule, no replacers |
| Config.New | block.go:89 | a sub-renderer keeps the collaborators and takes the default configuration |
| Config.ParagraphFormat | block.go:246-251 | the link format is `{%s}` exactly under CurlyBelow and empty otherwise |
| Config.LinkPrint | block.go:216-217 | writes the printer's line when it gives one and tells whether it did |
| Block.Render | block.go:12-310 | rendering a node writes exactly `Output`: entry step, children unless skipped, exit step |
| Block.RenderChildren | block.go:88-93 | the children in order, each in its own context |
| Block.Visit | block.go:12-310 | dispatches to the handler of the node's kind and writes exactly that handler's step |
| Block.VisitBlock | block.go:12-310 | the block handlers, with Document and ListItem doing nothing |
| Block.VisitInline | inline.go:11-118 | the inline and extension handlers |
| Block.WriteFirstLink | block.go:24-28 | in Auto mode, prints the first child that prints and no other, and reports whether one did |
| Block.WriteLabels | block.go:46-55 | writes the text of each link and wiki link and the label of each autolink, in order |
| Block.WritePrintedLines | block.go:67-73 | prints every child that prints, each followed by a newline, and reports whether any did |
| Block.WriteBelowLinks | block.go:260-277 | the below-links pass: a blank line before the first candidate and a newline before each later one, the candidate's line, the flag cleared once one prints |
| Block.RenderHeading | block.go:17-82 | a heading writes exactly its entry and exit steps |
| Block.EnterHeading | block.go:19-57 | the Auto first-link shortcut, else the marker and, in Off or Below mode for a link-only heading, the labels |
| Block.ExitHeading | block.go:58-79 | the configured separator, then in Below mode the printed lines and a newline if any printed |
| Block.RenderBlockquote | block.go:84-110 | the entry writes the quoted default-rendered body and skips the children; the exit writes a blank line |
| Block.SubRender | block.go:87-93 | renders the children with a fresh default renderer into a private buffer |
| Block.RenderCodeBlock | block.go:112-131 | the fence of the lines with no info, then a blank line on exit |
| Block.RenderFencedCodeBlock | block.go:133-154 | the fence with the info string when there is one |
| Block.RenderHTMLBlock | block.go:156-159 | nothing written, children skipped |
| Block.RenderList | block.go:161-202 | the entry writes the whole list and skips the children |
| Block.WriteList | block.go:164-197 | every item from its default-rendered body, then one more newline for a tight list |
| Block.WriteItem | block.go:168-192 | one item's body rendered into the shared buffer, written, and the buffer emptied again |
| Block.RenderParagraphLinkOnly | block.go:213-223 | on exit, every printed line followed by a newline, then a newline |
| Block.RenderParagraphLinkOff | block.go:228-239 | on exit, a link-only paragraph as a list of links, any other as a blank line |
| Block.RenderParagraphLinkBelow | block.go:244-281 | on exit, a link-only paragraph as a list of links, any other as the below-links pass and a blank line |
| Block.RenderParagraph | block.go:283-291 | Off selects the Off strategy, every other value the Below strategy |
| Block.RenderTextBlock | block.go:293-301 | a newline on exit exactly when the block has children and a next sibling |
| Block.RenderThematicBreak | block.go:303-310 | the configured rule on entry, a blank line on exit |
| Block.ItemsStep | block.go:167-193 | one more item appends that item's text to what the list loop has written |
| Inline.RenderAutoLink | inline.go:11-22 | the label on entry unless the parent is link-only, in which case the children are skipped |
| Inline.RenderCodeSpan | inline.go:24-30 | a backtick on each side in Markdown mode, nothing otherwise |
| Inline.RenderEmphasis | inline.go:32-62 | `_` or `**` on each side in Markdown mode; in Unicode mode the substituted text with the children skipped |
| Inline.RenderImage | inline.go:64-75 | `=> destination ` on entry; on exit a newline when there is a next sibling and the image has children |
| Inline.RenderLink | inline.go:77-83 | nothing written; the children are skipped exactly when the parent is link-only |
| Inline.RenderRawHTML | inline.go:85-88 | nothing written, children skipped |
| Inline.RenderText | inline.go:90-109 | nothing under a link-only parent; else the segment, a space for a soft break unless an image follows, a newline for a hard break |
| Inline.RenderString | inline.go:111-118 | the value on entry |
| Extra.RenderStrikethrough | extra.go:13-30 | `~~` on each side in Markdown mode; in Unicode mode the struck text with the children skipped |
| Extra.RenderWiki | extra.go:36-53 | skipped under a link-only parent; else braces around the children exactly under CurlyBelow |
| Properties.PrintedLinesJoin | block.go:67-73 | the print-each-link loop writes the printed lines joined by newlines, plus a final newline, or nothing |
| Properties.FirstPrintedPrefix | block.go:24-28 | until a line prints, the Auto search is where it started; once one has, it has found the first |
| Properties.FirstPrintedIsHead | block.go:24-28 | the Auto search finds the first printed line, and finds none exactly when no child prints |
| Properties.BelowScanFlag | block.go:260-276 | the below-links flag stays set exactly while no line has printed |
| Properties.BelowScanLines | block.go:260-277 | when every candidate prints, the pass writes a blank line and the lines joined by newlines, or nothing when there are none |
| Properties.LinksUnderParent | inline.go:11-22 | under a link-only parent, links of every kind and texts render to nothing; elsewhere a link is its children and an autolink is its label |
| Properties.LinkOnlyChildrenSilent | inline.go:77-109 | under a link-only parent, children that are links or texts contribute nothing |
| Properties.HeadingWalk | block.go:17-82 | the walk over a heading: entry step, children unless skipped, exit step |
| Properties.ParagraphWalk | block.go:283-291 | a paragraph's entry writes nothing, so its output is its children and its exit step |
| Properties.AutoHeadingIsFirstLink | block.go:21-29 | in Auto mode, a link-only heading with a printing link renders as the first printed line and the separator: no marker and no labels |
| Properties.LinkOnlyHeadingLabels | block.go:42-79 | in Off or Below mode, a link-only heading of links and texts renders as the marker, the labels and the separator; in Below mode the printed lines then follow, joined by newlines, then a blank line |
| Properties.LinkOnlyParagraph | block.go:213-223 | a link-only paragraph of links and texts renders, under every strategy, as its printed lines each followed by a newline, then a newline |
| Properties.ProseParagraphBelow | block.go:244-281 | a prose paragraph under Below or CurlyBelow, when every link child prints, renders as its children, then a blank line and the printed lines joined by newlines if any, then a blank line |
| Properties.ProseParagraphOff | block.go:228-239 | a prose paragraph under Off renders as its children and a blank line |
| Properties.BlockquoteOutput | block.go:84-110 | a blockquote is its default-rendered body, trimmed and quoted line by line, then a blank line |
| Properties.ListOutput | block.go:161-202 | a list is its items, each from its default-rendered body |
| Properties.CodeBlockOutput | block.go:112-154 | a code block is the fence of its lines (with the info string when fenced) and a blank line |
| Properties.HTMLOutput | block.go:156-159 | an HTML block or raw HTML renders to nothing, whatever it holds |
| Properties.ThematicBreakOutput | block.go:303-310 | a thematic break is the configured rule, then its children, then a blank line |
| Properties.MarkdownDelimitersBalance | inline.go:24-62 | in Markdown mode, emphasis, strikethrough and code spans wrap their children in the same delimiter on both sides |
| Properties.OffModeIsTransparent | inline.go:24-62 | in Off mode, emphasis, strikethrough and code spans are their children alone |
| Properties.UnicodeModeSubstitutes | inline.go:42-49 | in Unicode mode, emphasis and strikethrough are the substitution of the span's text, whatever their children would render to |
| Properties.LinksSilentInBoth | render.go:35-55 | under a parent without wiki-link children the two link-only tests agree, and under such a link-only parent both renderers write nothing for a link, autolink or text child |
| Properties.NestedIgnoresConfig | block.go:89 | blockquotes and lists render their content with `New()` (block.go:89, block.go:169), so two renderers with the same collaborators and any configurations render them alike |
| Properties.WikiOutput | extra.go:36-53 | a wiki link outside a link-only parent is its children, in braces exactly under CurlyBelow |
| Standalone.Render | render.go:57-310 | rendering a node writes exactly the standalone `Output` |
| Standalone.RenderChildren | render.go:79-83 | the children in order, each in its own context |
| Standalone.SubRender | render.go:78-83 | the children rendered into a private buffer |
| Standalone.Visit | render.go:57-309 | the walk callback writes exactly that kind's step |
| Standalone.VisitBlock | render.go:59-247 | the block cases |
| Standalone.VisitInline | render.go:249-307 | the inline cases; kinds without a case write nothing and let their children flow |
| Standalone.RenderList | render.go:139-181 | every item from its children's output, then one more newline for a tight list |
| Standalone.WriteItem | render.go:150-173 | one item's body rendered into the shared buffer, written, and the buffer emptied again |
| Standalone.WriteLinkSection | render.go:188-229 | the exit loop writes the link section: every link and autolink line, each after its separator |
| Standalone.WriteLinkLine | render.go:203-226 | a link's line is `=> destination ` and its trimmed sub-rendered children; an autolink's is `=> label` |
| Standalone.LinkSectionStep | render.go:191-228 | one more child adds a separator and its link line, or nothing |
| Standalone.ItemsStep | render.go:149-174 | one more item appends that item's text |
| Standalone.LinkSectionLines | render.go:188-229 | the link section is the link lines joined by newlines, after a blank line unless the paragraph is link-only; the first-link flag stays set exactly while there is no line |
| Standalone.LinkSectionAgrees | render.go:191-228 | the exit loop as written and as corrected give the same text and flag in a link-only paragraph, and wherever no autolink follows an earlier link line |
| Standalone.ParagraphAsWritten | render.go:186-231 | a link-only paragraph, or one in which no autolink follows an earlier link line, renders exactly as render.go's exit loop writes it: its children, the as-written link section, a blank line |
| Standalone.AutoLinkSeparatorCounterexample | render.go:216-227 | for the prose paragraph "see " followed by autolinks a and b, the code as written gives `\n\n=> a=> b`; the corrected loop gives `\n\n=> a\n=> b` |
| Standalone.LinksUnderParent | render.go:249-297 | under a link-only parent, links, autolinks and texts render to nothing; elsewhere a link is its children and an autolink its label |
| Standalone.LinkOnlyChildrenSilent | render.go:264-286 | under a link-only parent, children that are links or texts contribute nothing |
| Standalone.ParagraphWalk | render.go:186-231 | a paragraph is its children, its link section and a blank line |
| Standalone.LinkOnlyParagraph | render.go:186-231 | a link-only paragraph of links and texts renders as its link lines joined by newlines, then a blank line |
| Standalone.LinkLinesHasLink | render.go:191-228 | a link among the children gives at least one link line |
| Standalone.ProseParagraph | render.go:186-231 | a prose paragraph is its children, then a blank line and its link lines joined by newlines if any, then a blank line |
| Standalone.HeadingOutput | render.go:62-74 | a heading is its marker, its children and a blank line; for a link-only heading of links and texts, its links vanish entirely |
| Standalone.BlockquoteOutput | render.go:76-98 | a blockquote is its children's output, trimmed and quoted line by line, then a blank line |
| Standalone.ListOutput | render.go:139-181 | a list is its items, each built from its children's output |
| Standalone.ThematicBreakOutput | render.go:240-247 | a thematic break is 80 dashes, then its children, then a blank line |
| Standalone.CodeBlockOutput | render.go:100-134 | a code block is the fence of its lines (with the info string when fenced) and a blank line |
| Standalone.HTMLOutput | render.go:136-137 | an HTML block or raw HTML renders to nothing |
| Standalone.TextOutput | render.go:283-297 | a text is nothing under a link-only parent; else its segment, a space for a soft break unless an image follows, a newline for a hard break |
| Standalone.SpansAreTransparent | render.go:258-262 | code spans, emphasis, strikethrough and wiki links are their children alone |

## Notes on the code

- An Auto-mode link-only heading still gets its separator. The comment at
  block.go:23 says such a heading prints its first link and then exits.
  The comment at block.go:32 says it never reaches the marker. Both hold:
  the entry step returns `WalkSkipChildren` (block.go:26). But goldmark's
  walk calls the exit step even after a skip, so block.go:60-64 write the
  separator after the link line (`Properties.AutoHeadingIsFirstLink`).
  goldmark's `ast.Walk` is not part of this model. The model builds that
  order into `Output`.
- In a paragraph that is not link-only, link text flows inline.
  `renderLink` (inline.go:77-83) and render.go's `Link` case
  (render.go:264-267) return `WalkContinue` there, so a link's children
  render into the paragraph text. The link lines then follow below, as the
  expected output at doc_test.go:51-54 shows (`Properties.LinksUnderParent`,
  `Standalone.LinksUnderParent`).

## Left out

- The link-line printer (`linkPrint`), the GemRenderer's `linkOnly` helper and the `Config`/`New` code are not part of this model. The printer is a function in `Env` giving the line it writes, or nothing. The configured link-only test is modelled as render.go's `isLinkOnly` with wiki links counted.
- The regular-expression link replacers are kept as data and handed to the printer. They are not applied by the model.
- The Unicode glyph substitutions (`ItalicSans`, `BoldSans`, `Strike`) are functions in `Env`.
- `HR`, the default horizontal rule, is not part of this model. It is `env.hr`.
- Write errors, `WalkStop` and the panic/recover plumbing in render.go are not modelled: a `Buffer` write cannot fail.
- The logger warning for unsupported kinds in render.go (render.go:304-307) is output to stderr. It is left out. Such kinds write nothing and their children flow.
- `fmt.Fprintf` with a non-constant format (the rule at block.go:305, the autolink label at inline.go:18) would expand `%` verbs inside that text. The model writes the text literally.
- Text's soft-break test calls `Kind()` on the next sibling (inline.go:100, render.go:290). When there is no next sibling, Go dereferences nil. The model treats a missing sibling as "not an image" and writes the space.
- A node without a parent is treated as having no link-only parent. Go would call the test on nil.
- `List.Start` is read by render.go (render.go:141-144) and never used. It is not modelled.
- `Node.Text` (the concatenated text of a subtree) is modelled as the concatenation of text segments, strings and autolink labels. Goldmark's per-kind details are simplified.
- format.go, doc.go and the tests are not modelled. The defaults come from render_test.go:153.
- Buffer reuse across list items is modelled as one `Buffer`, emptied after each item. Aliasing between the output and that buffer is excluded by a precondition the code satisfies.
- The handler registration, which assigns each node kind to its handler, is not part of this model. Block.Visit sends each kind to the handler of the same name.
- Bytes are modelled as decoded characters: `string` is `seq<char>`. Every test the code makes looks at an ASCII first byte or at `TrimSpace`'s Unicode white space. Byte offsets and invalid UTF-8 are not modelled.
- Standalone.Render: writes the corrected autolink separator (see "## Findings"). In a paragraph that is not link-only, an autolink that follows an earlier link line gets a newline before its line; render.go:221-225 writes nothing there. On every other paragraph the output is render.go's (Standalone.ParagraphAsWritten).
- Standalone.Visit: the paragraph's exit step writes the corrected autolink separator, with the same departure from render.go:221-225 as Standalone.Render.
- Standalone.VisitBlock: the paragraph case writes the corrected link section `LinkSection`, not render.go's `LinkSectionAsWritten`. The two agree except where an autolink follows an earlier link line in a prose paragraph (Standalone.LinkSectionAgrees).
- Standalone.WriteLinkSection: writes the corrected link section, so a later autolink in a prose paragraph gets a newline before its line, where render.go:221-225 writes none.
- Standalone.LinkSectionStep: the separator it adds before a later autolink in a prose paragraph is the corrected newline, not render.go's empty separator.
- Standalone.ParagraphWalk: the link section it names is the corrected one. Standalone.ParagraphAsWritten gives render.go's own output where the two agree.
- Standalone.ProseParagraph: states the corrected output, with one link line per line. render.go runs a later autolink's line onto the previous line.
- Standalone.WriteLinkSection: render.go re-runs `isLinkOnly(n)` for every link child. The test is pure and its answer does not change during the loop, so the method computes it once.

## Findings

| source | as written | input that shows it | evidently intended | confidence | as-written member | corrected member |
|---|---|---|---|---|---|---|
| render.go:216-227 | in a paragraph that is not link-only, an autolink writes `\n\n` before itself only when it is the first link, and nothing otherwise, so a later autolink's line runs onto the previous line | the paragraph "see " followed by autolinks `a` and `b` gives `\n\n=> a=> b` | a newline before every later link line, as the `Link` case writes (render.go:199-213): `\n\n=> a\n=> b` | not executed | Standalone.AutoLinkSeparatorCounterexample | Standalone.LinkSectionLines |
