/** What the GemRenderer's walk produces for whole nodes: the combined
    effect of a node's entry step, its children and its exit step, stated
    on the specification functions of module Block. */
module Properties {
  import opened Ast
  import opened Bytes
  import opened Gemtext
  import opened Config
  import opened Block
  import Inline
  import Extra
  import Standalone

  // ---------------------------------------------------------------------
  // Printed link lines
  // ---------------------------------------------------------------------

  /** The print-each-link loop writes the printed lines one per line. */
  lemma {:induction false} PrintedLinesJoin(r: GemRenderer, p: Node, k: nat)
    requires k <= |p.children|
    ensures PrintedLines(r, p, k)
            == if Printed(r, p, k, "") == [] then "" else Join(Printed(r, p, k, "")) + "\n"
    decreases k
  {
    if k > 0 {
      PrintedLinesJoin(r, p, k - 1);
      PrintedStep(r, p, k);
      var ls := Printed(r, p, k - 1, "");
      var o := PrintOf(r, p.children[k - 1], "");
      if o.Some? {
        var l := o.value;
        assert Printed(r, p, k, "") == ls + [l];
        assert PrintedLines(r, p, k) == PrintedLines(r, p, k - 1) + (l + "\n");
        assert |ls + [l]| > 0;
        JoinLines(ls, l);
      } else {
        assert Printed(r, p, k, "") == ls;
        assert PrintedLines(r, p, k) == PrintedLines(r, p, k - 1);
      }
    }
  }

  /** One more child adds its printed line, if any, to both views. */
  lemma PrintedStep(r: GemRenderer, p: Node, k: nat)
    requires 0 < k <= |p.children|
    ensures var o := PrintOf(r, p.children[k - 1], "");
            PrintedLines(r, p, k) == PrintedLines(r, p, k - 1) + (if o.Some? then o.value + "\n" else "")
            && Printed(r, p, k, "") == Printed(r, p, k - 1, "") + (if o.Some? then [o.value] else [])
  {
  }

  /** Until a line has printed, the Auto heading's search is where it
      started; once one has, it has found the first. */
  lemma {:induction false} FirstPrintedPrefix(r: GemRenderer, p: Node, i: nat)
    requires i <= |p.children|
    ensures Printed(r, p, i, "") == [] ==> FirstPrinted(r, p, 0) == FirstPrinted(r, p, i)
    ensures Printed(r, p, i, "") != [] ==> FirstPrinted(r, p, 0) == Some(Printed(r, p, i, "")[0])
    decreases i
  {
    if i > 0 {
      FirstPrintedPrefix(r, p, i - 1);
    }
  }

  /** The Auto heading's search finds the first of the printed lines, and
      finds none exactly when no child prints. */
  lemma FirstPrintedIsHead(r: GemRenderer, p: Node)
    ensures var ls := Printed(r, p, |p.children|, "");
            FirstPrinted(r, p, 0) == if ls == [] then None else Some(ls[0])
  {
    FirstPrintedPrefix(r, p, |p.children|);
  }

  /** The below-links pass's flag stays set exactly while no line has
      printed. */
  lemma {:induction false} BelowScanFlag(r: GemRenderer, p: Node, k: nat, format: string)
    requires k <= |p.children|
    ensures BelowScan(r, p, k, format).1 == (PrintedBelow(r, p, k, format) == [])
    decreases k
  {
    if k > 0 {
      BelowScanFlag(r, p, k - 1, format);
    }
  }

  /** Every link-kind child the below-links pass meets prints a line. */
  predicate AllCandidatesPrint(r: GemRenderer, p: Node, format: string)
  {
    forall i :: 0 <= i < |p.children| && BelowCandidate(p.children[i])
                ==> PrintOf(r, p.children[i], format).Some?
  }

  /** When every candidate prints, the below-links pass is a blank line
      followed by the printed lines one per line, or nothing at all. */
  lemma {:induction false} BelowScanLines(r: GemRenderer, p: Node, k: nat, format: string)
    requires k <= |p.children|
    requires AllCandidatesPrint(r, p, format)
    ensures var ls := PrintedBelow(r, p, k, format);
            BelowScan(r, p, k, format).0 == if ls == [] then "" else "\n\n" + Join(ls)
    decreases k
  {
    if k > 0 {
      BelowScanLines(r, p, k - 1, format);
      BelowScanFlag(r, p, k - 1, format);
      var c := p.children[k - 1];
      var ls := PrintedBelow(r, p, k - 1, format);
      var text := BelowScan(r, p, k - 1, format).0;
      if BelowCandidate(c) {
        var l := PrintOf(r, c, format).value;
        var sep := if ls == [] then "\n\n" else "\n";
        assert BelowScan(r, p, k, format).0 == text + sep + l;
        assert PrintedBelow(r, p, k, format) == ls + [l];
        assert |ls + [l]| > 0;
        JoinLead("\n\n", ls, l);
      } else {
        assert BelowScan(r, p, k, format).0 == text;
        assert PrintedBelow(r, p, k, format) == ls;
      }
    }
  }

  // ---------------------------------------------------------------------
  // Link-only parents
  // ---------------------------------------------------------------------

  /** A child the link-only test looks at: a link of some kind or a text. */
  predicate LinkOrText(c: Node)
  {
    c.Link? || c.AutoLink? || c.Wiki? || c.Text?
  }

  /** Under a link-only parent, links of every kind and texts render to
      nothing; elsewhere a link is its children, an autolink its label. */
  lemma LinksUnderParent(r: GemRenderer, n: Node, ctx: Ctx)
    requires LinkOrText(n)
    ensures ParentLinkOnly(ctx, true) ==> Output(r, n, ctx) == ""
    ensures !ParentLinkOnly(ctx, true) && n.Link? ==> Output(r, n, ctx) == Children(r, n, |n.children|)
    ensures !ParentLinkOnly(ctx, true) && n.AutoLink?
            ==> Output(r, n, ctx) == n.linkLabel + Children(r, n, |n.children|)
  {
    assert Rule(r, n, ctx, true) == InlineRule(r, n, ctx, true);
    assert Rule(r, n, ctx, false) == InlineRule(r, n, ctx, false);
  }

  /** Under a link-only parent, children that are links, autolinks, wiki
      links or texts render to nothing. */
  lemma {:induction false} LinkOnlyChildrenSilent(r: GemRenderer, p: Node, k: nat)
    requires k <= |p.children|
    requires LinkOnly(p, true)
    requires forall i :: 0 <= i < |p.children| ==> LinkOrText(p.children[i])
    ensures Children(r, p, k) == ""
    decreases k
  {
    if k > 0 {
      LinkOnlyChildrenSilent(r, p, k - 1);
      var ctx := ChildCtx(p, k - 1);
      assert ParentLinkOnly(ctx, true);
      LinksUnderParent(r, p.children[k - 1], ctx);
    }
  }

  /** The walk over a heading: its entry step, its children unless that
      step skips them, its exit step. */
  lemma HeadingWalk(r: GemRenderer, n: Node, ctx: Ctx)
    requires n.Heading?
    ensures var enter := HeadingRule(r, n, true);
            Output(r, n, ctx)
            == enter.text + (if enter.status == WalkSkipChildren then "" else Children(r, n, |n.children|))
               + HeadingRule(r, n, false).text
  {
    assert Rule(r, n, ctx, true) == HeadingRule(r, n, true);
    assert Rule(r, n, ctx, false) == HeadingRule(r, n, false);
  }

  /** The walk over a paragraph: its children, then its exit step. */
  lemma ParagraphWalk(r: GemRenderer, n: Node, ctx: Ctx)
    requires n.Paragraph?
    ensures Output(r, n, ctx) == Children(r, n, |n.children|) + ParagraphRule(r, n, false).text
  {
    assert Rule(r, n, ctx, true) == ParagraphRule(r, n, true);
    assert Rule(r, n, ctx, false) == ParagraphRule(r, n, false);
  }

  // ---------------------------------------------------------------------
  // Headings
  // ---------------------------------------------------------------------

  /** In Auto mode a link-only heading that has a printing link renders as
      the first printed line and the separator: no marker, no labels. */
  lemma AutoHeadingIsFirstLink(r: GemRenderer, n: Node, ctx: Ctx)
    requires n.Heading? && r.config.headingLink == HeadingLinkAuto && LinkOnly(n, true)
    requires Printed(r, n, |n.children|, "") != []
    ensures Output(r, n, ctx) == Printed(r, n, |n.children|, "")[0] + HeadingSeparator(r.config)
  {
    FirstPrintedIsHead(r, n);
    HeadingWalk(r, n, ctx);
  }

  /** In Off or Below mode a heading made only of links and texts renders
      as the marker, the labels and the separator; in Below mode the
      printed lines follow, one per line, then a blank line. */
  lemma LinkOnlyHeadingLabels(r: GemRenderer, n: Node, ctx: Ctx)
    requires n.Heading? && r.config.headingLink != HeadingLinkAuto && LinkOnly(n, true)
    requires forall i :: 0 <= i < |n.children| ==> LinkOrText(n.children[i])
    ensures var ls := Printed(r, n, |n.children|, "");
            Output(r, n, ctx)
            == HeadingPrefix(n.level) + Labels(n, |n.children|) + HeadingSeparator(r.config)
               + (if r.config.headingLink == HeadingLinkBelow && ls != [] then Join(ls) + "\n\n" else "")
  {
    var N := |n.children|;
    var ls := Printed(r, n, N, "");
    var head := HeadingPrefix(n.level) + Labels(n, N);
    var sep := HeadingSeparator(r.config);
    var below := if r.config.headingLink == HeadingLinkBelow && ls != [] then Join(ls) + "\n\n" else "";
    LinkOnlyChildrenSilent(r, n, N);
    HeadingWalk(r, n, ctx);
    assert HeadingRule(r, n, true) == Step(head, WalkContinue);
    assert HeadingRule(r, n, false).text == sep + below by {
      PrintedLinesJoin(r, n, N);
      if r.config.headingLink == HeadingLinkBelow && ls != [] {
        ConcatAssoc(Join(ls), "\n", "\n");
      }
    }
    assert Output(r, n, ctx) == head + "" + (sep + below);
    assert head + "" == head;
    ConcatAssoc(head, sep, below);
  }

  // ---------------------------------------------------------------------
  // Paragraphs
  // ---------------------------------------------------------------------

  /** A paragraph made only of links and texts, with at least one link,
      renders as its printed lines one per line and a blank line, under
      every paragraph strategy. */
  lemma LinkOnlyParagraph(r: GemRenderer, n: Node, ctx: Ctx)
    requires n.Paragraph? && LinkOnly(n, true)
    requires forall i :: 0 <= i < |n.children| ==> LinkOrText(n.children[i])
    ensures var ls := Printed(r, n, |n.children|, "");
            Output(r, n, ctx) == (if ls == [] then "" else Join(ls) + "\n") + "\n"
  {
    LinkOnlyChildrenSilent(r, n, |n.children|);
    PrintedLinesJoin(r, n, |n.children|);
    ParagraphWalk(r, n, ctx);
    assert ParagraphRule(r, n, false).text == PrintedLines(r, n, |n.children|) + "\n";
  }

  /** A prose paragraph under the Below or CurlyBelow strategy, when every
      link prints: the children inline, then a blank line and the printed
      lines one per line if there are any, then a blank line. */
  lemma ProseParagraphBelow(r: GemRenderer, n: Node, ctx: Ctx)
    requires n.Paragraph? && !LinkOnly(n, true) && r.config.paragraphLink != ParagraphLinkOff
    requires AllCandidatesPrint(r, n, ParagraphFormat(r.config))
    ensures var ls := PrintedBelow(r, n, |n.children|, ParagraphFormat(r.config));
            Output(r, n, ctx)
            == Children(r, n, |n.children|) + (if ls == [] then "" else "\n\n" + Join(ls)) + "\n\n"
  {
    var format := ParagraphFormat(r.config);
    var below := BelowScan(r, n, |n.children|, format).0;
    BelowScanLines(r, n, |n.children|, format);
    ParagraphWalk(r, n, ctx);
    assert ParagraphRule(r, n, false) == ParagraphLinkBelowRule(r, n, false);
    assert ParagraphLinkBelowRule(r, n, false).text == below + "\n\n";
    ConcatAssoc(Children(r, n, |n.children|), below, "\n\n");
  }

  /** A prose paragraph under the Off strategy: the children inline, then
      a blank line. */
  lemma ProseParagraphOff(r: GemRenderer, n: Node, ctx: Ctx)
    requires n.Paragraph? && !LinkOnly(n, true) && r.config.paragraphLink == ParagraphLinkOff
    ensures Output(r, n, ctx) == Children(r, n, |n.children|) + "\n\n"
  {
    ParagraphWalk(r, n, ctx);
  }

  // ---------------------------------------------------------------------
  // Containers and leaves
  // ---------------------------------------------------------------------

  /** A blockquote renders as its default-rendered body, trimmed and quoted
      line by line, then a blank line; its own walk adds nothing between. */
  lemma BlockquoteOutput(r: GemRenderer, n: Node, ctx: Ctx)
    requires n.Blockquote?
    ensures Output(r, n, ctx) == Quoted(Children(New(r), n, |n.children|)) + "\n\n"
  {
    assert Rule(r, n, ctx, true) == BlockquoteRule(r, n, true);
    assert Rule(r, n, ctx, false) == BlockquoteRule(r, n, false);
  }

  /** A list renders as its items, each from its default-rendered body. */
  lemma ListOutput(r: GemRenderer, n: Node, ctx: Ctx)
    requires n.List?
    ensures Output(r, n, ctx) == ListText(ItemBodies(r, n, |n.children|), n.isTight)
  {
    assert Rule(r, n, ctx, true) == ListRule(r, n, true);
    assert Rule(r, n, ctx, false) == ListRule(r, n, false);
  }

  /** A code block renders as its fenced lines and a blank line. */
  lemma CodeBlockOutput(r: GemRenderer, n: Node, ctx: Ctx)
    requires n.CodeBlock? || n.FencedCodeBlock?
    ensures var info := if n.FencedCodeBlock? && n.info.Some? then n.info.value else "";
            Output(r, n, ctx) == Fence(info, n.lines) + "\n\n"
  {
    if n.CodeBlock? {
      assert Rule(r, n, ctx, true) == CodeBlockRule(n, true);
      assert Rule(r, n, ctx, false) == CodeBlockRule(n, false);
    } else {
      assert Rule(r, n, ctx, true) == FencedCodeBlockRule(n, true);
      assert Rule(r, n, ctx, false) == FencedCodeBlockRule(n, false);
    }
  }

  /** HTML blocks and raw HTML render to nothing, whatever they hold. */
  lemma HTMLOutput(r: GemRenderer, n: Node, ctx: Ctx)
    requires n.HTMLBlock? || n.RawHTML?
    ensures Output(r, n, ctx) == ""
  {
    if n.HTMLBlock? {
      assert Rule(r, n, ctx, true) == HTMLBlockRule();
      assert Rule(r, n, ctx, false) == HTMLBlockRule();
    } else {
      assert Rule(r, n, ctx, true) == Inline.RawHTMLRule();
      assert Rule(r, n, ctx, false) == Inline.RawHTMLRule();
    }
  }

  /** A thematic break renders as the configured rule, its children and a
      blank line. */
  lemma ThematicBreakOutput(r: GemRenderer, n: Node, ctx: Ctx)
    requires n.ThematicBreak?
    ensures Output(r, n, ctx) == r.config.horizontalRule + Children(r, n, |n.children|) + "\n\n"
  {
    assert Rule(r, n, ctx, true) == ThematicBreakRule(r.config, true);
    assert Rule(r, n, ctx, false) == ThematicBreakRule(r.config, false);
  }

  /** Markdown-mode emphasis, strikethrough and code spans wrap their
      children in the same delimiter on both sides. */
  lemma MarkdownDelimitersBalance(r: GemRenderer, n: Node, ctx: Ctx)
    requires (n.Emphasis? && r.config.emphasis == EmphasisMarkdown)
             || (n.Strikethrough? && r.config.strikethrough == StrikethroughMarkdown)
             || (n.CodeSpan? && r.config.codeSpan == CodeSpanMarkdown)
    ensures var d := if n.Emphasis? then Inline.EmphasisDelimiter(n.level)
                     else if n.Strikethrough? then "~~" else "`";
            Output(r, n, ctx) == d + Children(r, n, |n.children|) + d
  {
  }

  /** Off-mode emphasis, strikethrough and code spans are their children
      alone. */
  lemma OffModeIsTransparent(r: GemRenderer, n: Node, ctx: Ctx)
    requires (n.Emphasis? && r.config.emphasis == EmphasisOff)
             || (n.Strikethrough? && r.config.strikethrough == StrikethroughOff)
             || (n.CodeSpan? && r.config.codeSpan == CodeSpanOff)
    ensures Output(r, n, ctx) == Children(r, n, |n.children|)
  {
  }

  /** Unicode-mode emphasis and strikethrough are the substitution of the
      span's text, whatever their children would have rendered to. */
  lemma UnicodeModeSubstitutes(r: GemRenderer, n: Node, ctx: Ctx)
    requires (n.Emphasis? && r.config.emphasis == EmphasisUnicode)
             || (n.Strikethrough? && r.config.strikethrough == StrikethroughUnicode)
    ensures Output(r, n, ctx)
            == (if n.Strikethrough? then r.env.strike(NodeText(n))
                else if n.level == 1 then r.env.italicSans(NodeText(n))
                else r.env.boldSans(NodeText(n)))
  {
  }

  /** A wiki link outside a link-only parent is its children, in braces
      under the CurlyBelow strategy. */
  lemma WikiOutput(r: GemRenderer, n: Node, ctx: Ctx)
    requires n.Wiki? && !ParentLinkOnly(ctx, true)
    ensures var curly := r.config.paragraphLink == ParagraphLinkCurlyBelow;
            Output(r, n, ctx)
            == (if curly then "{" else "") + Children(r, n, |n.children|) + (if curly then "}" else "")
  {
  }

  // ---------------------------------------------------------------------
  // Across renderers and configurations
  // ---------------------------------------------------------------------

  /** Under a parent with no wiki-link children, the two link-only tests
      agree, and under such a link-only parent both renderers silence every
      link, autolink and text child. */
  lemma LinksSilentInBoth(r: GemRenderer, n: Node, ctx: Ctx)
    requires n.Link? || n.AutoLink? || n.Text?
    requires ctx.parent.Some? ==> forall i :: 0 <= i < |ctx.parent.value.children| ==> !ctx.parent.value.children[i].Wiki?
    ensures ParentLinkOnly(ctx, true) == ParentLinkOnly(ctx, false)
    ensures ParentLinkOnly(ctx, false) ==> Output(r, n, ctx) == "" && Standalone.Output(n, ctx) == ""
  {
    if ctx.parent.Some? {
      LinkOnlyWithoutWiki(ctx.parent.value);
    }
    LinksUnderParent(r, n, ctx);
    Standalone.LinksUnderParent(n, ctx);
  }

  /** The bodies of a list's items do not depend on the configuration. */
  lemma {:induction false} ItemBodiesIgnoreConfig(r1: GemRenderer, r2: GemRenderer, n: Node, k: nat)
    requires r1.env == r2.env && k <= |n.children|
    ensures ItemBodies(r1, n, k) == ItemBodies(r2, n, k)
    decreases k
  {
    if k > 0 {
      ItemBodiesIgnoreConfig(r1, r2, n, k - 1);
      assert New(r1) == New(r2);
    }
  }

  /** Blockquotes and lists render their content with a fresh default
      renderer, so what they write does not depend on the configuration:
      two renderers with the same collaborators render them alike, whatever
      emphasis, code-span, heading or paragraph settings they carry. */
  lemma NestedIgnoresConfig(r1: GemRenderer, r2: GemRenderer, n: Node, ctx: Ctx)
    requires r1.env == r2.env
    requires n.Blockquote? || n.List?
    ensures Output(r1, n, ctx) == Output(r2, n, ctx)
  {
    assert New(r1) == New(r2);
    if n.Blockquote? {
      BlockquoteOutput(r1, n, ctx);
      BlockquoteOutput(r2, n, ctx);
    } else {
      ListOutput(r1, n, ctx);
      ListOutput(r2, n, ctx);
      ItemBodiesIgnoreConfig(r1, r2, n, |n.children|);
    }
  }
}
