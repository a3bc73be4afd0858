/** The GemRenderer's inline handlers: what each writes when the walk
    enters or leaves an inline node, and whether the walk goes on into the
    node's children. Each handler is a step function, `XRule`, and a method,
    `RenderX`, that writes the step to the output. */
module Inline {
  import opened Ast
  import opened Bytes
  import opened Config

  /** An autolink writes its label on entry unless its parent is link-only,
      in which case the parent prints the link and the label is skipped. */
  function AutoLinkRule(n: Node, ctx: Ctx, entering: bool): Step
    requires n.AutoLink?
  {
    if !entering then Step("", WalkContinue)
    else if ParentLinkOnly(ctx, true) then Step("", WalkSkipChildren)
    else Step(n.linkLabel, WalkContinue)
  }

  method RenderAutoLink(r: GemRenderer, w: Buffer, n: Node, ctx: Ctx, entering: bool) returns (st: WalkStatus)
    requires n.AutoLink?
    modifies w
    ensures w.data == old(w.data) + AutoLinkRule(n, ctx, entering).text
    ensures st == AutoLinkRule(n, ctx, entering).status
  {
    st := WalkContinue;
    if entering {
      var linkOnly := ScanParentLinkOnly(ctx, true);
      if linkOnly {
        st := WalkSkipChildren;
      } else {
        w.Write(n.linkLabel);
      }
    }
  }

  /** A code span keeps one backtick on each side in Markdown mode and
      loses them otherwise; its children always flow. */
  function CodeSpanRule(c: Config): Step
  {
    Step(if c.codeSpan == CodeSpanMarkdown then "`" else "", WalkContinue)
  }

  method RenderCodeSpan(r: GemRenderer, w: Buffer, n: Node, entering: bool) returns (st: WalkStatus)
    requires n.CodeSpan?
    modifies w
    ensures w.data == old(w.data) + CodeSpanRule(r.config).text
    ensures st == CodeSpanRule(r.config).status
  {
    if r.config.codeSpan == CodeSpanMarkdown {
      w.Write("`");
    }
    st := WalkContinue;
  }

  /** The Markdown delimiter of an emphasis of the given level. */
  function EmphasisDelimiter(level: int): string
  {
    if level == 1 then "_" else "**"
  }

  /** Emphasis: delimiters on both sides in Markdown mode; in Unicode mode
      the substituted text of the whole span on entry, children skipped;
      nothing in Off mode, children flowing. */
  function EmphasisRule(r: GemRenderer, n: Node, entering: bool): Step
    requires n.Emphasis?
  {
    match r.config.emphasis
    case EmphasisMarkdown => Step(EmphasisDelimiter(n.level), WalkContinue)
    case EmphasisUnicode =>
      if !entering then Step("", WalkContinue)
      else if n.level == 1 then Step(r.env.italicSans(NodeText(n)), WalkSkipChildren)
      else Step(r.env.boldSans(NodeText(n)), WalkSkipChildren)
    case EmphasisOff => Step("", WalkContinue)
  }

  method RenderEmphasis(r: GemRenderer, w: Buffer, n: Node, entering: bool) returns (st: WalkStatus)
    requires n.Emphasis?
    modifies w
    ensures w.data == old(w.data) + EmphasisRule(r, n, entering).text
    ensures st == EmphasisRule(r, n, entering).status
  {
    st := WalkContinue;
    if entering {
      match r.config.emphasis {
        case EmphasisMarkdown =>
          if n.level == 1 { w.Write("_"); } else { w.Write("**"); }
        case EmphasisUnicode =>
          var text := NodeText(n);
          if n.level == 1 {
            w.Write(r.env.italicSans(text));
          } else {
            w.Write(r.env.boldSans(text));
          }
          st := WalkSkipChildren;
        case EmphasisOff =>
      }
    } else {
      if r.config.emphasis == EmphasisMarkdown {
        if n.level == 1 { w.Write("_"); } else { w.Write("**"); }
      }
    }
  }

  /** An image opens a link line with its destination; on exit it ends the
      line when it has children and a next sibling. */
  function ImageRule(n: Node, ctx: Ctx, entering: bool): Step
    requires n.Image?
  {
    if entering then Step("=> " + n.destination + " ", WalkContinue)
    else Step(if ctx.next.Some? && |n.children| > 0 then "\n" else "", WalkContinue)
  }

  method RenderImage(r: GemRenderer, w: Buffer, n: Node, ctx: Ctx, entering: bool) returns (st: WalkStatus)
    requires n.Image?
    modifies w
    ensures w.data == old(w.data) + ImageRule(n, ctx, entering).text
    ensures st == ImageRule(n, ctx, entering).status
  {
    if entering {
      w.Write("=> ");
      w.Write(n.destination + " ");
    } else if ctx.next.Some? && |n.children| > 0 {
      w.Write("\n");
    }
    st := WalkContinue;
  }

  /** A link writes nothing; it skips its children when its parent is
      link-only, otherwise they flow as plain text. */
  function LinkRule(ctx: Ctx): Step
  {
    Step("", if ParentLinkOnly(ctx, true) then WalkSkipChildren else WalkContinue)
  }

  method RenderLink(r: GemRenderer, w: Buffer, n: Node, ctx: Ctx, entering: bool) returns (st: WalkStatus)
    requires n.Link?
    ensures st == LinkRule(ctx).status
  {
    var linkOnly := ScanParentLinkOnly(ctx, true);
    st := if linkOnly then WalkSkipChildren else WalkContinue;
  }

  /** Raw HTML is dropped with its children. */
  function RawHTMLRule(): Step
  {
    Step("", WalkSkipChildren)
  }

  method RenderRawHTML(r: GemRenderer, w: Buffer, n: Node, entering: bool) returns (st: WalkStatus)
    requires n.RawHTML?
    ensures st == RawHTMLRule().status
  {
    st := WalkSkipChildren;
  }

  /** A text node writes nothing under a link-only parent. Otherwise, on
      entry, its segment, a space for a soft break unless an image comes
      next, and a newline for a hard break. */
  function TextRule(n: Node, ctx: Ctx, entering: bool): Step
    requires n.Text?
  {
    if ParentLinkOnly(ctx, true) then Step("", WalkSkipChildren)
    else if !entering then Step("", WalkContinue)
    else Step(n.segment
              + (if n.softLineBreak && !NextIsImage(ctx) then " " else "")
              + (if n.hardLineBreak then "\n" else ""), WalkContinue)
  }

  method RenderText(r: GemRenderer, w: Buffer, n: Node, ctx: Ctx, entering: bool) returns (st: WalkStatus)
    requires n.Text?
    modifies w
    ensures w.data == old(w.data) + TextRule(n, ctx, entering).text
    ensures st == TextRule(n, ctx, entering).status
  {
    var linkOnly := ScanParentLinkOnly(ctx, true);
    if linkOnly {
      return WalkSkipChildren;
    }
    if entering {
      w.Write(n.segment);
      if n.softLineBreak {
        if !(ctx.next.Some? && ctx.next.value.Image?) {
          w.Write(" ");
        }
      }
      if n.hardLineBreak {
        w.Write("\n");
      }
    }
    st := WalkContinue;
  }

  /** A string node writes its value on entry. */
  function StringRule(n: Node, entering: bool): Step
    requires n.String?
  {
    Step(if entering then n.value else "", WalkContinue)
  }

  method RenderString(r: GemRenderer, w: Buffer, n: Node, entering: bool) returns (st: WalkStatus)
    requires n.String?
    modifies w
    ensures w.data == old(w.data) + StringRule(n, entering).text
    ensures st == StringRule(n, entering).status
  {
    if !entering {
      return WalkContinue;
    }
    w.Write(n.value);
    st := WalkContinue;
  }
}
