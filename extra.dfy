/** The GemRenderer's handlers for the two extension nodes: strikethrough
    and wiki links. */
module Extra {
  import opened Ast
  import opened Bytes
  import opened Config

  /** Strikethrough: `~~` on both sides in Markdown mode; in Unicode mode
      the substituted text of the whole span on entry, children skipped;
      nothing in Off mode, children flowing. */
  function StrikethroughRule(r: GemRenderer, n: Node, entering: bool): Step
    requires n.Strikethrough?
  {
    match r.config.strikethrough
    case StrikethroughMarkdown => Step("~~", WalkContinue)
    case StrikethroughUnicode =>
      if entering then Step(r.env.strike(NodeText(n)), WalkSkipChildren)
      else Step("", WalkContinue)
    case StrikethroughOff => Step("", WalkContinue)
  }

  method RenderStrikethrough(r: GemRenderer, w: Buffer, n: Node, entering: bool) returns (st: WalkStatus)
    requires n.Strikethrough?
    modifies w
    ensures w.data == old(w.data) + StrikethroughRule(r, n, entering).text
    ensures st == StrikethroughRule(r, n, entering).status
  {
    st := WalkContinue;
    if entering {
      match r.config.strikethrough {
        case StrikethroughMarkdown => w.Write("~~");
        case StrikethroughUnicode =>
          w.Write(r.env.strike(NodeText(n)));
          st := WalkSkipChildren;
        case StrikethroughOff =>
      }
    } else {
      if r.config.strikethrough == StrikethroughMarkdown {
        w.Write("~~");
      }
    }
  }

  /** A wiki link writes nothing and skips its children under a link-only
      parent (the parent prints the link). Otherwise its children flow,
      between curly braces when paragraph links are CurlyBelow. */
  function WikiRule(r: GemRenderer, ctx: Ctx, entering: bool): Step
  {
    if ParentLinkOnly(ctx, true) then Step("", WalkSkipChildren)
    else if r.config.paragraphLink != ParagraphLinkCurlyBelow then Step("", WalkContinue)
    else Step(if entering then "{" else "}", WalkContinue)
  }

  method RenderWiki(r: GemRenderer, w: Buffer, n: Node, ctx: Ctx, entering: bool) returns (st: WalkStatus)
    requires n.Wiki?
    modifies w
    ensures w.data == old(w.data) + WikiRule(r, ctx, entering).text
    ensures st == WikiRule(r, ctx, entering).status
  {
    var linkOnly := ScanParentLinkOnly(ctx, true);
    if linkOnly {
      return WalkSkipChildren;
    }
    var curly := r.config.paragraphLink == ParagraphLinkCurlyBelow;
    if entering {
      if curly {
        w.Write("{");
      }
    } else {
      if curly {
        w.Write("}");
      }
    }
    st := WalkContinue;
  }
}
