/** The GemRenderer: the walk over the tree, the dispatch to each kind's
    handler, and the block handlers. Blockquotes and lists render their
    children with a fresh default renderer, so the handlers and the walk
    live in one module.

    `Output(r, n, ctx)` is what rendering `n` in context `ctx` appends; the
    methods write exactly that, and the lemmas at the end state what the
    handlers promise about it. */
module Block {
  import opened Ast
  import opened Bytes
  import opened Gemtext
  import opened Config
  import Inline
  import Extra

  // =====================================================================
  // The rendering, as functions
  // =====================================================================

  /** The walk: the entry step, the children unless the entry step skips
      them, then the exit step (which runs even after a skip). */
  function Output(r: GemRenderer, n: Node, ctx: Ctx): string
    decreases n, 6
  {
    var enter := Rule(r, n, ctx, true);
    enter.text
    + (if enter.status == WalkSkipChildren then "" else Children(r, n, |n.children|))
    + Rule(r, n, ctx, false).text
  }

  /** The outputs of the first `k` children of `p`, each in its own context. */
  function Children(r: GemRenderer, p: Node, k: nat): string
    requires k <= |p.children|
    decreases p, 2, k
  {
    if k == 0 then "" else Children(r, p, k - 1) + Output(r, p.children[k - 1], ChildCtx(p, k - 1))
  }

  /** The handler registered for each kind. */
  function Rule(r: GemRenderer, n: Node, ctx: Ctx, entering: bool): Step
    decreases n, 5
  {
    if IsInline(n) then InlineRule(r, n, ctx, entering) else BlockRule(r, n, ctx, entering)
  }

  /** The block handlers; the document, list items and kinds without a
      handler do nothing. */
  function BlockRule(r: GemRenderer, n: Node, ctx: Ctx, entering: bool): Step
    decreases n, 4
  {
    match n
    case Heading(_, _) => HeadingRule(r, n, entering)
    case Blockquote(_) => BlockquoteRule(r, n, entering)
    case CodeBlock(_, _) => CodeBlockRule(n, entering)
    case FencedCodeBlock(_, _, _) => FencedCodeBlockRule(n, entering)
    case HTMLBlock(_) => HTMLBlockRule()
    case List(_, _) => ListRule(r, n, entering)
    case Paragraph(_) => ParagraphRule(r, n, entering)
    case TextBlock(_) => TextBlockRule(n, ctx, entering)
    case ThematicBreak(_) => ThematicBreakRule(r.config, entering)
    case _ => Step("", WalkContinue)
  }

  /** The inline handlers. */
  function InlineRule(r: GemRenderer, n: Node, ctx: Ctx, entering: bool): Step
  {
    match n
    case AutoLink(_, _) => Inline.AutoLinkRule(n, ctx, entering)
    case CodeSpan(_) => Inline.CodeSpanRule(r.config)
    case Emphasis(_, _) => Inline.EmphasisRule(r, n, entering)
    case Image(_, _) => Inline.ImageRule(n, ctx, entering)
    case Link(_, _) => Inline.LinkRule(ctx)
    case RawHTML(_) => Inline.RawHTMLRule()
    case Text(_, _, _, _) => Inline.TextRule(n, ctx, entering)
    case String(_, _) => Inline.StringRule(n, entering)
    case Strikethrough(_) => Extra.StrikethroughRule(r, n, entering)
    case Wiki(_, _) => Extra.WikiRule(r, ctx, entering)
    case _ => Step("", WalkContinue)
  }

  // ---------------------------------------------------------------------
  // Link printing over a node's children
  // ---------------------------------------------------------------------

  /** Whether a paragraph's below-links pass hands this child to the link
      printer: links, wiki links and autolinks. */
  predicate BelowCandidate(c: Node)
  {
    c.Link? || c.Wiki? || c.AutoLink?
  }

  /** The line the link printer gives for `c`, if any. */
  function PrintOf(r: GemRenderer, c: Node, format: string): Option<string>
  {
    r.env.linkPrint(c, r.config.linkReplacers, format)
  }

  /** The lines printed for the first `k` children of `p`, in order. */
  function Printed(r: GemRenderer, p: Node, k: nat, format: string): seq<string>
    requires k <= |p.children|
  {
    if k == 0 then []
    else Printed(r, p, k - 1, format)
         + (match PrintOf(r, p.children[k - 1], format) case Some(l) => [l] case None => [])
  }

  /** What the print-each-link loop writes for the first `k` children: every
      printed line followed by a newline. */
  function PrintedLines(r: GemRenderer, p: Node, k: nat): string
    requires k <= |p.children|
  {
    if k == 0 then ""
    else PrintedLines(r, p, k - 1)
         + (match PrintOf(r, p.children[k - 1], "") case Some(l) => l + "\n" case None => "")
  }

  /** The first line printed for children `i` onwards: the loop of Auto
      headings stops at the first child that prints. */
  function FirstPrinted(r: GemRenderer, p: Node, i: nat): Option<string>
    requires i <= |p.children|
    decreases |p.children| - i
  {
    if i == |p.children| then None
    else match PrintOf(r, p.children[i], "")
         case Some(l) => Some(l)
         case None => FirstPrinted(r, p, i + 1)
  }

  /** The label a link-only heading shows in place of a link child: the
      text of a link or wiki link, the label of an autolink. */
  function LabelOf(c: Node): string
  {
    if c.Link? || c.Wiki? then NodeText(c)
    else if c.AutoLink? then c.linkLabel
    else ""
  }

  function Labels(p: Node, k: nat): string
    requires k <= |p.children|
  {
    if k == 0 then "" else Labels(p, k - 1) + LabelOf(p.children[k - 1])
  }

  /** The below-links pass of a prose paragraph over the first `k` children:
      the text written so far and whether no link has printed yet. Each
      candidate is preceded by a blank line while none has printed, by a
      newline afterwards; the flag clears only when a print succeeds. */
  function BelowScan(r: GemRenderer, p: Node, k: nat, format: string): (string, bool)
    requires k <= |p.children|
  {
    if k == 0 then ("", true)
    else
      var (text, first) := BelowScan(r, p, k - 1, format);
      var c := p.children[k - 1];
      if !BelowCandidate(c) then (text, first)
      else
        var sep := if first then "\n\n" else "\n";
        match PrintOf(r, c, format)
        case Some(l) => (text + sep + l, false)
        case None => (text + sep, first)
  }

  /** The lines the below-links pass prints over the first `k` children. */
  function PrintedBelow(r: GemRenderer, p: Node, k: nat, format: string): seq<string>
    requires k <= |p.children|
  {
    if k == 0 then []
    else PrintedBelow(r, p, k - 1, format)
         + (if !BelowCandidate(p.children[k - 1]) then []
            else match PrintOf(r, p.children[k - 1], format) case Some(l) => [l] case None => [])
  }

  // ---------------------------------------------------------------------
  // Block handlers
  // ---------------------------------------------------------------------

  function HeadingSeparator(c: Config): string
  {
    if c.headingSpace == HeadingSpaceSingle then "\n" else "\n\n"
  }

  /** A heading. On entry, an Auto-mode link-only heading writes its first
      printed link and skips its children; otherwise the marker, then, in
      Off or Below mode for a link-only heading, the link labels. On exit,
      the separator, then in Below mode every printed link on a line of its
      own and one more newline if any printed. */
  function HeadingRule(r: GemRenderer, n: Node, entering: bool): Step
    requires n.Heading?
  {
    var c := r.config;
    var linkOnly := LinkOnly(n, true);
    if entering then
      if c.headingLink == HeadingLinkAuto && linkOnly && FirstPrinted(r, n, 0).Some? then
        Step(FirstPrinted(r, n, 0).value, WalkSkipChildren)
      else
        Step(HeadingPrefix(n.level)
             + (if c.headingLink != HeadingLinkAuto && linkOnly then Labels(n, |n.children|) else ""),
             WalkContinue)
    else
      Step(HeadingSeparator(c)
           + (if c.headingLink == HeadingLinkBelow then
                PrintedLines(r, n, |n.children|)
                + (if Printed(r, n, |n.children|, "") != [] then "\n" else "")
              else ""),
           WalkContinue)
  }

  /** A blockquote: its children rendered by a default renderer, trimmed
      and quoted line by line; children skipped; a blank line on exit. */
  function BlockquoteRule(r: GemRenderer, n: Node, entering: bool): Step
    decreases n, 3
  {
    if entering then Step(Quoted(Children(New(r), n, |n.children|)), WalkSkipChildren)
    else Step("\n\n", WalkContinue)
  }

  /** An indented code block: its lines verbatim between fences. */
  function CodeBlockRule(n: Node, entering: bool): Step
    requires n.CodeBlock?
  {
    if entering then Step(Fence("", n.lines), WalkSkipChildren)
    else Step("\n\n", WalkContinue)
  }

  /** A fenced code block: as a code block, with its info string after the
      opening fence. */
  function FencedCodeBlockRule(n: Node, entering: bool): Step
    requires n.FencedCodeBlock?
  {
    if entering then
      Step(Fence(if n.info.Some? then n.info.value else "", n.lines), WalkSkipChildren)
    else Step("\n\n", WalkContinue)
  }

  /** An HTML block is dropped with its children. */
  function HTMLBlockRule(): Step
  {
    Step("", WalkSkipChildren)
  }

  /** The sub-rendered bodies of the first `k` items of a list. */
  function ItemBodies(r: GemRenderer, n: Node, k: nat): (bodies: seq<string>)
    requires k <= |n.children|
    ensures |bodies| == k
    decreases n, 1, k
  {
    if k == 0 then []
    else ItemBodies(r, n, k - 1) + [Children(New(r), n.children[k - 1], |n.children[k - 1].children|)]
  }

  /** A list: every item sub-rendered by a default renderer and written
      as a "* " item; children skipped. */
  function ListRule(r: GemRenderer, n: Node, entering: bool): Step
    requires n.List?
    decreases n, 3
  {
    if entering then Step(ListText(ItemBodies(r, n, |n.children|), n.isTight), WalkSkipChildren)
    else Step("", WalkContinue)
  }

  /** The link-only paragraph strategy: on exit, every printed link on a
      line of its own, then a newline. */
  function ParagraphLinkOnlyRule(r: GemRenderer, n: Node, entering: bool): Step
    requires n.Paragraph?
  {
    Step(if entering then "" else PrintedLines(r, n, |n.children|) + "\n", WalkContinue)
  }

  /** The Off strategy: a link-only paragraph is a list of links, any other
      closes with a blank line. */
  function ParagraphLinkOffRule(r: GemRenderer, n: Node, entering: bool): Step
    requires n.Paragraph?
  {
    if entering then Step("", WalkContinue)
    else if LinkOnly(n, true) then ParagraphLinkOnlyRule(r, n, entering)
    else Step("\n\n", WalkContinue)
  }

  /** The Below strategy: a link-only paragraph is a list of links; any
      other is followed by the below-links pass and a blank line. */
  function ParagraphLinkBelowRule(r: GemRenderer, n: Node, entering: bool): Step
    requires n.Paragraph?
  {
    if entering then Step("", WalkContinue)
    else if LinkOnly(n, true) then ParagraphLinkOnlyRule(r, n, entering)
    else Step(BelowScan(r, n, |n.children|, ParagraphFormat(r.config)).0 + "\n\n", WalkContinue)
  }

  function ParagraphRule(r: GemRenderer, n: Node, entering: bool): Step
    requires n.Paragraph?
  {
    match r.config.paragraphLink
    case ParagraphLinkOff => ParagraphLinkOffRule(r, n, entering)
    case _ => ParagraphLinkBelowRule(r, n, entering)
  }

  /** A text block ends its line on exit when it has children and a next
      sibling. */
  function TextBlockRule(n: Node, ctx: Ctx, entering: bool): Step
  {
    Step(if !entering && ctx.next.Some? && |n.children| > 0 then "\n" else "", WalkContinue)
  }

  /** A thematic break writes the configured rule, then a blank line. */
  function ThematicBreakRule(c: Config, entering: bool): Step
  {
    Step(if entering then c.horizontalRule else "\n\n", WalkContinue)
  }

  // =====================================================================
  // The rendering, as methods
  // =====================================================================

  /** Renders `n` to `w`: the walk with the handler of each kind. */
  method Render(r: GemRenderer, w: Buffer, n: Node, ctx: Ctx)
    modifies w
    ensures w.data == old(w.data) + Output(r, n, ctx)
    decreases n, 7
  {
    ghost var start := w.data;
    ghost var enter := Rule(r, n, ctx, true);
    ghost var body := if enter.status == WalkSkipChildren then "" else Children(r, n, |n.children|);
    var st := Visit(r, w, n, ctx, true);
    if st != WalkSkipChildren {
      RenderChildren(r, w, n);
    }
    assert w.data == (start + enter.text) + body;
    ConcatAssoc(start, enter.text, body);
    ghost var exit := Rule(r, n, ctx, false);
    st := Visit(r, w, n, ctx, false);
    assert Output(r, n, ctx) == (enter.text + body) + exit.text;
    ConcatAssoc(start, enter.text + body, exit.text);
  }

  /** Renders every child of `p` in turn, each in its own context. */
  method RenderChildren(r: GemRenderer, w: Buffer, p: Node)
    modifies w
    ensures w.data == old(w.data) + Children(r, p, |p.children|)
    decreases p, 2
  {
    ghost var start := w.data;
    var i := 0;
    while i < |p.children|
      invariant 0 <= i <= |p.children|
      invariant w.data == start + Children(r, p, i)
    {
      Render(r, w, p.children[i], ChildCtx(p, i));
      ConcatAssoc(start, Children(r, p, i), Output(r, p.children[i], ChildCtx(p, i)));
      i := i + 1;
    }
  }

  /** Calls the handler registered for the kind of `n`. */
  method Visit(r: GemRenderer, w: Buffer, n: Node, ctx: Ctx, entering: bool) returns (st: WalkStatus)
    modifies w
    ensures w.data == old(w.data) + Rule(r, n, ctx, entering).text
    ensures st == Rule(r, n, ctx, entering).status
    decreases n, 6
  {
    if IsInline(n) {
      st := VisitInline(r, w, n, ctx, entering);
    } else {
      st := VisitBlock(r, w, n, ctx, entering);
    }
  }

  method VisitBlock(r: GemRenderer, w: Buffer, n: Node, ctx: Ctx, entering: bool) returns (st: WalkStatus)
    modifies w
    ensures w.data == old(w.data) + BlockRule(r, n, ctx, entering).text
    ensures st == BlockRule(r, n, ctx, entering).status
    decreases n, 5
  {
    match n {
      case Heading(_, _) =>
        assert BlockRule(r, n, ctx, entering) == HeadingRule(r, n, entering);
        st := RenderHeading(r, w, n, entering);
      case Blockquote(_) =>
        assert BlockRule(r, n, ctx, entering) == BlockquoteRule(r, n, entering);
        st := RenderBlockquote(r, w, n, entering);
      case CodeBlock(_, _) =>
        assert BlockRule(r, n, ctx, entering) == CodeBlockRule(n, entering);
        st := RenderCodeBlock(r, w, n, entering);
      case FencedCodeBlock(_, _, _) =>
        assert BlockRule(r, n, ctx, entering) == FencedCodeBlockRule(n, entering);
        st := RenderFencedCodeBlock(r, w, n, entering);
      case HTMLBlock(_) =>
        assert BlockRule(r, n, ctx, entering) == HTMLBlockRule();
        st := RenderHTMLBlock(r, w, n, entering);
      case List(_, _) =>
        assert BlockRule(r, n, ctx, entering) == ListRule(r, n, entering);
        st := RenderList(r, w, n, entering);
      case Paragraph(_) =>
        assert BlockRule(r, n, ctx, entering) == ParagraphRule(r, n, entering);
        st := RenderParagraph(r, w, n, entering);
      case TextBlock(_) =>
        assert BlockRule(r, n, ctx, entering) == TextBlockRule(n, ctx, entering);
        st := RenderTextBlock(r, w, n, ctx, entering);
      case ThematicBreak(_) =>
        assert BlockRule(r, n, ctx, entering) == ThematicBreakRule(r.config, entering);
        st := RenderThematicBreak(r, w, n, entering);
      case _ => st := WalkContinue;
    }
  }

  method VisitInline(r: GemRenderer, w: Buffer, n: Node, ctx: Ctx, entering: bool) returns (st: WalkStatus)
    modifies w
    ensures w.data == old(w.data) + InlineRule(r, n, ctx, entering).text
    ensures st == InlineRule(r, n, ctx, entering).status
  {
    match n {
      case AutoLink(_, _) =>
        assert InlineRule(r, n, ctx, entering) == Inline.AutoLinkRule(n, ctx, entering);
        st := Inline.RenderAutoLink(r, w, n, ctx, entering);
      case CodeSpan(_) =>
        assert InlineRule(r, n, ctx, entering) == Inline.CodeSpanRule(r.config);
        st := Inline.RenderCodeSpan(r, w, n, entering);
      case Emphasis(_, _) =>
        assert InlineRule(r, n, ctx, entering) == Inline.EmphasisRule(r, n, entering);
        st := Inline.RenderEmphasis(r, w, n, entering);
      case Image(_, _) =>
        assert InlineRule(r, n, ctx, entering) == Inline.ImageRule(n, ctx, entering);
        st := Inline.RenderImage(r, w, n, ctx, entering);
      case Link(_, _) =>
        assert InlineRule(r, n, ctx, entering) == Inline.LinkRule(ctx);
        st := Inline.RenderLink(r, w, n, ctx, entering);
      case RawHTML(_) =>
        assert InlineRule(r, n, ctx, entering) == Inline.RawHTMLRule();
        st := Inline.RenderRawHTML(r, w, n, entering);
      case Text(_, _, _, _) =>
        assert InlineRule(r, n, ctx, entering) == Inline.TextRule(n, ctx, entering);
        st := Inline.RenderText(r, w, n, ctx, entering);
      case String(_, _) =>
        assert InlineRule(r, n, ctx, entering) == Inline.StringRule(n, entering);
        st := Inline.RenderString(r, w, n, entering);
      case Strikethrough(_) =>
        assert InlineRule(r, n, ctx, entering) == Extra.StrikethroughRule(r, n, entering);
        st := Extra.RenderStrikethrough(r, w, n, entering);
      case Wiki(_, _) =>
        assert InlineRule(r, n, ctx, entering) == Extra.WikiRule(r, ctx, entering);
        st := Extra.RenderWiki(r, w, n, ctx, entering);
      case _ => st := WalkContinue;
    }
  }

  // ---------------------------------------------------------------------
  // The loops over a node's children
  // ---------------------------------------------------------------------

  /** Prints the first child that prints, and no other; `ok` tells whether
      one did. */
  method WriteFirstLink(r: GemRenderer, w: Buffer, p: Node) returns (ok: bool)
    modifies w
    ensures ok == FirstPrinted(r, p, 0).Some?
    ensures w.data == old(w.data) + (if ok then FirstPrinted(r, p, 0).value else "")
  {
    var i := 0;
    while i < |p.children|
      invariant 0 <= i <= |p.children|
      invariant FirstPrinted(r, p, 0) == FirstPrinted(r, p, i)
      invariant w.data == old(w.data)
    {
      ok := LinkPrint(r, w, p.children[i], "");
      if ok {
        return;
      }
      i := i + 1;
    }
    ok := false;
  }

  /** Writes the label of every link child; other children add nothing. */
  method WriteLabels(w: Buffer, p: Node)
    modifies w
    ensures w.data == old(w.data) + Labels(p, |p.children|)
  {
    ghost var start := w.data;
    var i := 0;
    while i < |p.children|
      invariant 0 <= i <= |p.children|
      invariant w.data == start + Labels(p, i)
    {
      var child := p.children[i];
      ghost var before := w.data;
      match child {
        case Link(_, _) => w.Write(NodeText(child));
        case Wiki(_, _) => w.Write(NodeText(child));
        case AutoLink(linkLabel, _) => w.Write(linkLabel);
        case _ =>
      }
      assert w.data == before + LabelOf(child);
      assert Labels(p, i + 1) == Labels(p, i) + LabelOf(child);
      ConcatAssoc(start, Labels(p, i), LabelOf(child));
      i := i + 1;
    }
  }

  /** Prints every child that prints, each followed by a newline; `any`
      tells whether one did. */
  method WritePrintedLines(r: GemRenderer, w: Buffer, p: Node) returns (any: bool)
    modifies w
    ensures w.data == old(w.data) + PrintedLines(r, p, |p.children|)
    ensures any == (Printed(r, p, |p.children|, "") != [])
  {
    any := false;
    var i := 0;
    while i < |p.children|
      invariant 0 <= i <= |p.children|
      invariant w.data == old(w.data) + PrintedLines(r, p, i)
      invariant any == (Printed(r, p, i, "") != [])
    {
      var ok := LinkPrint(r, w, p.children[i], "");
      if ok {
        w.Write("\n");
        any := true;
      }
      i := i + 1;
    }
  }

  /** The below-links pass of a prose paragraph. */
  method WriteBelowLinks(r: GemRenderer, w: Buffer, p: Node, format: string)
    modifies w
    ensures w.data == old(w.data) + BelowScan(r, p, |p.children|, format).0
  {
    var firstLink := true;
    var i := 0;
    while i < |p.children|
      invariant 0 <= i <= |p.children|
      invariant w.data == old(w.data) + BelowScan(r, p, i, format).0
      invariant firstLink == BelowScan(r, p, i, format).1
    {
      var child := p.children[i];
      if child.Link? || child.Wiki? || child.AutoLink? {
        if firstLink {
          w.Write("\n\n");
        } else {
          w.Write("\n");
        }
        var ok := LinkPrint(r, w, child, format);
        if ok {
          firstLink := false;
        }
      }
      i := i + 1;
    }
  }

  // ---------------------------------------------------------------------
  // Block handler methods
  // ---------------------------------------------------------------------

  method RenderHeading(r: GemRenderer, w: Buffer, n: Node, entering: bool) returns (st: WalkStatus)
    requires n.Heading?
    modifies w
    ensures w.data == old(w.data) + HeadingRule(r, n, entering).text
    ensures st == HeadingRule(r, n, entering).status
  {
    if entering {
      st := EnterHeading(r, w, n);
    } else {
      ExitHeading(r, w, n);
      st := WalkContinue;
    }
  }

  /** The heading's entry: the Auto-mode first link, or the marker and,
      in Off or Below mode for a link-only heading, the labels. */
  method EnterHeading(r: GemRenderer, w: Buffer, n: Node) returns (st: WalkStatus)
    requires n.Heading?
    modifies w
    ensures w.data == old(w.data) + HeadingRule(r, n, true).text
    ensures st == HeadingRule(r, n, true).status
  {
    if r.config.headingLink == HeadingLinkAuto {
      var linkOnly := ScanLinkOnly(n, true);
      if linkOnly {
        var ok := WriteFirstLink(r, w, n);
        if ok {
          return WalkSkipChildren;
        }
      }
    }
    w.Write(HeadingPrefix(n.level));
    if r.config.headingLink == HeadingLinkOff || r.config.headingLink == HeadingLinkBelow {
      var linkOnly := ScanLinkOnly(n, true);
      if linkOnly {
        WriteLabels(w, n);
      }
    }
    st := WalkContinue;
  }

  /** The heading's exit: the separator, then in Below mode the printed
      links and a newline if any printed. */
  method ExitHeading(r: GemRenderer, w: Buffer, n: Node)
    requires n.Heading?
    modifies w
    ensures w.data == old(w.data) + HeadingRule(r, n, false).text
  {
    if r.config.headingSpace == HeadingSpaceSingle {
      w.Write("\n");
    } else {
      w.Write("\n\n");
    }
    if r.config.headingLink == HeadingLinkBelow {
      var hasLink := WritePrintedLines(r, w, n);
      if hasLink {
        w.Write("\n");
      }
    }
  }

  method RenderBlockquote(r: GemRenderer, w: Buffer, n: Node, entering: bool) returns (st: WalkStatus)
    requires n.Blockquote?
    modifies w
    ensures w.data == old(w.data) + BlockquoteRule(r, n, entering).text
    ensures st == BlockquoteRule(r, n, entering).status
    decreases n, 4
  {
    if entering {
      var body := SubRender(r, n);
      WriteQuoted(w, body);
      return WalkSkipChildren;
    }
    w.Write("\n\n");
    st := WalkContinue;
  }

  /** Renders the children of `p` with a default renderer into a private
      buffer and returns what it holds. */
  method SubRender(r: GemRenderer, p: Node) returns (body: string)
    ensures body == Children(New(r), p, |p.children|)
    decreases p, 3
  {
    var buf := new Buffer();
    RenderChildren(New(r), buf, p);
    body := buf.data;
  }

  method RenderCodeBlock(r: GemRenderer, w: Buffer, n: Node, entering: bool) returns (st: WalkStatus)
    requires n.CodeBlock?
    modifies w
    ensures w.data == old(w.data) + CodeBlockRule(n, entering).text
    ensures st == CodeBlockRule(n, entering).status
  {
    if entering {
      WriteFence(w, "", n.lines);
      return WalkSkipChildren;
    }
    w.Write("\n\n");
    st := WalkContinue;
  }

  method RenderFencedCodeBlock(r: GemRenderer, w: Buffer, n: Node, entering: bool) returns (st: WalkStatus)
    requires n.FencedCodeBlock?
    modifies w
    ensures w.data == old(w.data) + FencedCodeBlockRule(n, entering).text
    ensures st == FencedCodeBlockRule(n, entering).status
  {
    if entering {
      var info := "";
      if n.info.Some? {
        info := n.info.value;
      }
      WriteFence(w, info, n.lines);
      return WalkSkipChildren;
    }
    w.Write("\n\n");
    st := WalkContinue;
  }

  method RenderHTMLBlock(r: GemRenderer, w: Buffer, n: Node, entering: bool) returns (st: WalkStatus)
    requires n.HTMLBlock?
    ensures st == HTMLBlockRule().status
  {
    st := WalkSkipChildren;
  }

  method RenderList(r: GemRenderer, w: Buffer, n: Node, entering: bool) returns (st: WalkStatus)
    requires n.List?
    modifies w
    ensures w.data == old(w.data) + ListRule(r, n, entering).text
    ensures st == ListRule(r, n, entering).status
    decreases n, 4
  {
    if !entering {
      return WalkContinue;
    }
    WriteList(r, w, n);
    st := WalkSkipChildren;
  }

  /** Sub-renders every item with a fresh renderer and writes it; a tight
      list ends with one more newline. */
  method WriteList(r: GemRenderer, w: Buffer, n: Node)
    requires n.List?
    modifies w
    ensures w.data == old(w.data) + ListText(ItemBodies(r, n, |n.children|), n.isTight)
    decreases n, 3
  {
    var tight := n.isTight;
    ghost var start := w.data;
    var buf := new Buffer();
    var i := 0;
    while i < |n.children|
      invariant 0 <= i <= |n.children|
      invariant buf.data == [] && buf != w
      invariant w.data == start + Flatten(ListItems(ItemBodies(r, n, i), tight))
    {
      WriteItem(r, w, buf, n.children[i], tight);
      ItemsStep(start, r, n, i, tight);
      i := i + 1;
    }
    ghost var items := Flatten(ListItems(ItemBodies(r, n, |n.children|), tight));
    if tight {
      w.Write("\n");
    }
    assert w.data == start + items + (if tight then "\n" else "");
    ConcatAssoc(start, items, if tight then "\n" else "");
  }

  /** Renders one list item's children into `buf`, writes the item, and
      empties `buf` again. */
  method WriteItem(r: GemRenderer, w: Buffer, buf: Buffer, item: Node, tight: bool)
    requires buf.data == [] && buf != w
    modifies w, buf
    ensures buf.data == []
    ensures w.data == old(w.data) + ListItemText(Children(New(r), item, |item.children|), tight)
    decreases item, 3
  {
    ghost var before := w.data;
    RenderChildren(New(r), buf, item);
    var text := buf.data;
    assert text == Children(New(r), item, |item.children|);
    buf.Reset();
    assert w.data == before;
    WriteListItem(w, text, tight);
  }

  method RenderParagraphLinkOnly(r: GemRenderer, w: Buffer, n: Node, entering: bool) returns (st: WalkStatus)
    requires n.Paragraph?
    modifies w
    ensures w.data == old(w.data) + ParagraphLinkOnlyRule(r, n, entering).text
    ensures st == ParagraphLinkOnlyRule(r, n, entering).status
  {
    if !entering {
      var _ := WritePrintedLines(r, w, n);
      w.Write("\n");
    }
    st := WalkContinue;
  }

  method RenderParagraphLinkOff(r: GemRenderer, w: Buffer, n: Node, entering: bool) returns (st: WalkStatus)
    requires n.Paragraph?
    modifies w
    ensures w.data == old(w.data) + ParagraphLinkOffRule(r, n, entering).text
    ensures st == ParagraphLinkOffRule(r, n, entering).status
  {
    if !entering {
      var linkOnly := ScanLinkOnly(n, true);
      if linkOnly {
        st := RenderParagraphLinkOnly(r, w, n, entering);
        return;
      }
      w.Write("\n\n");
    }
    st := WalkContinue;
  }

  method RenderParagraphLinkBelow(r: GemRenderer, w: Buffer, n: Node, entering: bool) returns (st: WalkStatus)
    requires n.Paragraph?
    modifies w
    ensures w.data == old(w.data) + ParagraphLinkBelowRule(r, n, entering).text
    ensures st == ParagraphLinkBelowRule(r, n, entering).status
  {
    if !entering {
      var format := if r.config.paragraphLink == ParagraphLinkCurlyBelow then "{%s}" else "";
      var linkOnly := ScanLinkOnly(n, true);
      if linkOnly {
        st := RenderParagraphLinkOnly(r, w, n, entering);
        return;
      }
      WriteBelowLinks(r, w, n, format);
      w.Write("\n\n");
    }
    st := WalkContinue;
  }

  method RenderParagraph(r: GemRenderer, w: Buffer, n: Node, entering: bool) returns (st: WalkStatus)
    requires n.Paragraph?
    modifies w
    ensures w.data == old(w.data) + ParagraphRule(r, n, entering).text
    ensures st == ParagraphRule(r, n, entering).status
  {
    match r.config.paragraphLink {
      case ParagraphLinkOff => st := RenderParagraphLinkOff(r, w, n, entering);
      case _ => st := RenderParagraphLinkBelow(r, w, n, entering);
    }
  }

  method RenderTextBlock(r: GemRenderer, w: Buffer, n: Node, ctx: Ctx, entering: bool) returns (st: WalkStatus)
    requires n.TextBlock?
    modifies w
    ensures w.data == old(w.data) + TextBlockRule(n, ctx, entering).text
    ensures st == TextBlockRule(n, ctx, entering).status
  {
    if !entering {
      if ctx.next.Some? && |n.children| > 0 {
        w.Write("\n");
      }
    }
    st := WalkContinue;
  }

  method RenderThematicBreak(r: GemRenderer, w: Buffer, n: Node, entering: bool) returns (st: WalkStatus)
    requires n.ThematicBreak?
    modifies w
    ensures w.data == old(w.data) + ThematicBreakRule(r.config, entering).text
    ensures st == ThematicBreakRule(r.config, entering).status
  {
    if entering {
      w.Write(r.config.horizontalRule);
    } else {
      w.Write("\n\n");
    }
    st := WalkContinue;
  }

  // =====================================================================
  // Lemmas
  // =====================================================================

  /** One more item body adds that item's text at the end. */
  lemma ItemsStep(prefix: string, r: GemRenderer, n: Node, i: nat, tight: bool)
    requires i < |n.children|
    ensures prefix + Flatten(ListItems(ItemBodies(r, n, i + 1), tight))
            == (prefix + Flatten(ListItems(ItemBodies(r, n, i), tight)))
               + ListItemText(Children(New(r), n.children[i], |n.children[i].children|), tight)
  {
    var body := Children(New(r), n.children[i], |n.children[i].children|);
    ListItemsSnoc(ItemBodies(r, n, i), body, tight);
    ConcatAssoc(prefix, Flatten(ListItems(ItemBodies(r, n, i), tight)), ListItemText(body, tight));
  }
}
