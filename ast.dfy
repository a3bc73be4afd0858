/** The already-parsed document tree the renderers walk, the context a node
    is visited in, and the "link-only" classification both renderers use.

    The goldmark tree links each node to its parent and to its next sibling;
    here a node owns the ordered sequence of its children, and the context
    `Ctx` carries the two back-references a rule may consult. */
module Ast {

  datatype Option<T> = None | Some(value: T)

  /** One node of the document tree. Every kind keeps its ordered children;
      text spans into the source become plain strings. */
  datatype Node =
    | Document(children: seq<Node>)
    | Heading(level: int, children: seq<Node>)
    | Blockquote(children: seq<Node>)
    | CodeBlock(lines: seq<string>, children: seq<Node>)
    | FencedCodeBlock(info: Option<string>, lines: seq<string>, children: seq<Node>)
    | HTMLBlock(children: seq<Node>)
    | List(isTight: bool, children: seq<Node>)
    | ListItem(children: seq<Node>)
    | Paragraph(children: seq<Node>)
    | TextBlock(children: seq<Node>)
    | ThematicBreak(children: seq<Node>)
    | AutoLink(linkLabel: string, children: seq<Node>)
    | CodeSpan(children: seq<Node>)
    | Emphasis(level: int, children: seq<Node>)
    | Image(destination: string, children: seq<Node>)
    | Link(destination: string, children: seq<Node>)
    | RawHTML(children: seq<Node>)
    | Text(segment: string, softLineBreak: bool, hardLineBreak: bool, children: seq<Node>)
    | String(value: string, children: seq<Node>)
    | Strikethrough(children: seq<Node>)
    | Wiki(target: string, children: seq<Node>)
    | Unsupported(children: seq<Node>)

  /** The inline kinds. */
  predicate IsInline(n: Node)
  {
    n.AutoLink? || n.CodeSpan? || n.Emphasis? || n.Image? || n.Link?
    || n.RawHTML? || n.Text? || n.String? || n.Strikethrough? || n.Wiki?
  }

  /** Where a node sits: its parent (absent for a root) and its next sibling. */
  datatype Ctx = Ctx(parent: Option<Node>, next: Option<Node>)

  /** The context of the i-th child of `p`. */
  function ChildCtx(p: Node, i: nat): (c: Ctx)
    requires i < |p.children|
    ensures c.parent == Some(p)
    ensures c.next.Some? <==> i + 1 < |p.children|
    ensures c.next.Some? ==> c.next.value == p.children[i + 1]
  {
    Ctx(Some(p), if i + 1 < |p.children| then Some(p.children[i + 1]) else None)
  }

  /** What a walker callback tells the walk to do next. */
  datatype WalkStatus = WalkContinue | WalkSkipChildren

  /** What one callback invocation appends, and the status it returns. */
  datatype Step = Step(text: string, status: WalkStatus)

  /** The concatenated text of a node, as goldmark's Node.Text gives it:
      the segment of a Text, the value of a String, the label of an
      AutoLink, otherwise the texts of the children in order. */
  function NodeText(n: Node): string
    decreases n, 1
  {
    match n
    case Text(segment, _, _, _) => segment
    case String(value, _) => value
    case AutoLink(linkLabel, _) => linkLabel
    case _ => ChildrenText(n, |n.children|)
  }

  function ChildrenText(n: Node, k: nat): string
    requires k <= |n.children|
    decreases n, 0, k
  {
    if k == 0 then "" else ChildrenText(n, k - 1) + NodeText(n.children[k - 1])
  }

  // ---------------------------------------------------------------------
  // Link-only classification
  // ---------------------------------------------------------------------

  /** A child that counts as a link: Link and AutoLink always; Wiki links
      too when `countWiki` (the GemRenderer's test does, render.go's does not). */
  predicate IsLinkChild(c: Node, countWiki: bool)
  {
    c.Link? || c.AutoLink? || (countWiki && c.Wiki?)
  }

  /** A Text child with a non-empty segment. */
  predicate IsProse(c: Node)
  {
    c.Text? && c.segment != ""
  }

  /** `n` is link-only: some direct child is a link and no direct child is
      a non-empty Text. */
  predicate LinkOnly(n: Node, countWiki: bool)
  {
    (exists i :: 0 <= i < |n.children| && IsLinkChild(n.children[i], countWiki))
    && (forall i :: 0 <= i < |n.children| ==> !IsProse(n.children[i]))
  }

  /** Is the parent in this context link-only? A root has no parent and is
      treated as not link-only. */
  predicate ParentLinkOnly(ctx: Ctx, countWiki: bool)
  {
    ctx.parent.Some? && LinkOnly(ctx.parent.value, countWiki)
  }

  /** Is the next sibling an Image? An absent sibling is not an image. */
  predicate NextIsImage(ctx: Ctx)
  {
    ctx.next.Some? && ctx.next.value.Image?
  }

  /** The scan of the children of `n` that render.go's `isLinkOnly` closure
      performs (and the GemRenderer's `linkOnly`, with `countWiki`): one pass
      setting `hasLink` and `hasText`. */
  method ScanLinkOnly(n: Node, countWiki: bool) returns (linkOnly: bool)
    ensures linkOnly == LinkOnly(n, countWiki)
  {
    var hasLink := false;
    var hasText := false;
    var i := 0;
    while i < |n.children|
      invariant 0 <= i <= |n.children|
      invariant hasLink <==> exists j :: 0 <= j < i && IsLinkChild(n.children[j], countWiki)
      invariant hasText <==> exists j :: 0 <= j < i && IsProse(n.children[j])
    {
      var child := n.children[i];
      if child.Link? || child.AutoLink? || (countWiki && child.Wiki?) {
        hasLink := true;
      } else if child.Text? && child.segment != "" {
        hasText := true;
      }
      i := i + 1;
    }
    linkOnly := hasLink && !hasText;
  }

  /** `ParentLinkOnly`, computed by the scan. */
  method ScanParentLinkOnly(ctx: Ctx, countWiki: bool) returns (linkOnly: bool)
    ensures linkOnly == ParentLinkOnly(ctx, countWiki)
  {
    linkOnly := false;
    if ctx.parent.Some? {
      linkOnly := ScanLinkOnly(ctx.parent.value, countWiki);
    }
  }

  /** When no child is a wiki link, the test that counts wiki links as
      links and the one that does not give the same answer. */
  lemma {:induction false} LinkOnlyWithoutWiki(n: Node)
    requires forall i :: 0 <= i < |n.children| ==> !n.children[i].Wiki?
    ensures LinkOnly(n, true) == LinkOnly(n, false)
  {
    if LinkOnly(n, true) {
      var i :| 0 <= i < |n.children| && IsLinkChild(n.children[i], true);
      assert IsLinkChild(n.children[i], false);
    }
  }
}
