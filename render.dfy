/** render.go's standalone `Render`: a single walk callback with one case
    per node kind and no configuration. Blockquotes and lists render their
    children by calling `Render` again into a private buffer; a paragraph
    gathers its links into Gemtext link lines on exit. Its link-only test
    is `LinkOnly(_, false)`: wiki links are not links here.

    As with module Block, the output is first defined by functions
    (`Output`, `Rule`) and the methods are proved to write exactly that. */
module Standalone {
  import opened Ast
  import opened Bytes
  import opened Gemtext

  // =====================================================================
  // The output, as functions
  // =====================================================================

  /** The walk: entry step, children unless skipped, exit step. */
  function Output(n: Node, ctx: Ctx): string
    decreases n, 6
  {
    var enter := Rule(n, ctx, true);
    enter.text
    + (if enter.status == WalkSkipChildren then "" else Children(n, |n.children|))
    + Rule(n, ctx, false).text
  }

  /** The outputs of the first `k` children of `p`, each in its own context. */
  function Children(p: Node, k: nat): string
    requires k <= |p.children|
    decreases p, 2, k
  {
    if k == 0 then "" else Children(p, k - 1) + Output(p.children[k - 1], ChildCtx(p, k - 1))
  }

  /** The callback's case for the kind of `n`. */
  function Rule(n: Node, ctx: Ctx, entering: bool): Step
    decreases n, 5
  {
    if IsInline(n) then InlineRule(n, ctx, entering) else BlockRule(n, ctx, entering)
  }

  /** The block cases. The document, list items and kinds the callback has
      no case for write nothing. */
  function BlockRule(n: Node, ctx: Ctx, entering: bool): Step
    decreases n, 4
  {
    match n
    case Heading(level, _) => Step(if entering then HeadingPrefix(level) else "\n\n", WalkContinue)
    case Blockquote(_) =>
      if entering then Step(Quoted(Children(n, |n.children|)), WalkSkipChildren)
      else Step("\n\n", WalkContinue)
    case CodeBlock(lines, _) =>
      if entering then Step(Fence("", lines), WalkSkipChildren) else Step("\n\n", WalkContinue)
    case FencedCodeBlock(info, lines, _) =>
      if entering then Step(Fence(if info.Some? then info.value else "", lines), WalkSkipChildren)
      else Step("\n\n", WalkContinue)
    case HTMLBlock(_) => Step("", WalkSkipChildren)
    case List(isTight, _) =>
      if entering then Step(ListText(ItemBodies(n, |n.children|), isTight), WalkSkipChildren)
      else Step("", WalkContinue)
    case Paragraph(_) =>
      Step(if entering then "" else LinkSection(n, |n.children|, LinkOnly(n, false)).0 + "\n\n", WalkContinue)
    case TextBlock(_) =>
      Step(if !entering && ctx.next.Some? && |n.children| > 0 then "\n" else "", WalkContinue)
    case ThematicBreak(_) => Step(if entering then Dashes(80) else "\n\n", WalkContinue)
    case _ => Step("", WalkContinue)
  }

  /** The inline cases. Code spans and emphasis hide their delimiters;
      strikethrough and wiki links have no case; all four let their
      children flow. */
  function InlineRule(n: Node, ctx: Ctx, entering: bool): Step
  {
    match n
    case AutoLink(linkLabel, _) =>
      if ParentLinkOnly(ctx, false) then Step("", WalkSkipChildren)
      else Step(if entering then linkLabel else "", WalkContinue)
    case Link(_, _) => Step("", if ParentLinkOnly(ctx, false) then WalkSkipChildren else WalkContinue)
    case Image(destination, _) =>
      if entering then Step("=> " + destination + " ", WalkContinue)
      else Step(if ctx.next.Some? && |n.children| > 0 then "\n" else "", WalkContinue)
    case RawHTML(_) => Step("", WalkSkipChildren)
    case Text(segment, softLineBreak, hardLineBreak, _) =>
      if ParentLinkOnly(ctx, false) then Step("", WalkSkipChildren)
      else if !entering then Step("", WalkContinue)
      else Step(segment
                + (if softLineBreak && !NextIsImage(ctx) then " " else "")
                + (if hardLineBreak then "\n" else ""), WalkContinue)
    case String(value, _) => Step(if entering then value else "", WalkContinue)
    case _ => Step("", WalkContinue)
  }

  /** The rendered bodies of the first `k` items of a list. */
  function ItemBodies(n: Node, k: nat): (bodies: seq<string>)
    requires k <= |n.children|
    ensures |bodies| == k
    decreases n, 3, k
  {
    if k == 0 then []
    else ItemBodies(n, k - 1) + [Children(n.children[k - 1], |n.children[k - 1].children|)]
  }

  // ---------------------------------------------------------------------
  // A paragraph's link lines
  // ---------------------------------------------------------------------

  /** The children a paragraph turns into link lines. */
  predicate IsLinkLine(c: Node)
  {
    c.Link? || c.AutoLink?
  }

  /** The Gemtext link line of a link (its destination and its rendered,
      trimmed text) or of an autolink (its label). */
  function LinkLine(c: Node): string
    decreases c, 3
  {
    if c.Link? then "=> " + c.destination + " " + TrimSpace(Children(c, |c.children|))
    else if c.AutoLink? then "=> " + c.linkLabel
    else ""
  }

  /** What comes before a link line: in a link-only paragraph nothing
      before the first and a newline before each later one; otherwise a
      blank line before the first and a newline before each later one. */
  function Separator(linkOnly: bool, first: bool): string
  {
    if first then (if linkOnly then "" else "\n\n") else "\n"
  }

  /** The paragraph's exit loop over its first `k` children, given
      whether the paragraph is link-only: the text so far and whether no
      link line has been written yet. */
  function LinkSection(p: Node, k: nat, linkOnly: bool): (string, bool)
    requires k <= |p.children|
    decreases p, 3, k
  {
    if k == 0 then ("", true)
    else
      var (text, first) := LinkSection(p, k - 1, linkOnly);
      var c := p.children[k - 1];
      if !IsLinkLine(c) then (text, first)
      else (text + Separator(linkOnly, first) + LinkLine(c), false)
  }

  /** The link lines of the first `k` children, in order. */
  function LinkLines(p: Node, k: nat): seq<string>
    requires k <= |p.children|
  {
    if k == 0 then []
    else LinkLines(p, k - 1) + (if IsLinkLine(p.children[k - 1]) then [LinkLine(p.children[k - 1])] else [])
  }

  /** The separator render.go writes before an autolink's line: the same
      as for a link, except that in a paragraph that is not link-only it
      writes nothing before any but the first. */
  function AutoLinkSeparatorAsWritten(linkOnly: bool, first: bool): string
  {
    if linkOnly then (if first then "" else "\n")
    else (if first then "\n\n" else "")
  }

  /** The exit loop with render.go's autolink separator. */
  function LinkSectionAsWritten(p: Node, k: nat, linkOnly: bool): (string, bool)
    requires k <= |p.children|
  {
    if k == 0 then ("", true)
    else
      var (text, first) := LinkSectionAsWritten(p, k - 1, linkOnly);
      var c := p.children[k - 1];
      if c.Link? then (text + Separator(linkOnly, first) + LinkLine(c), false)
      else if c.AutoLink? then (text + AutoLinkSeparatorAsWritten(linkOnly, first) + LinkLine(c), false)
      else (text, first)
  }

  // =====================================================================
  // The rendering, as methods
  // =====================================================================

  /** Renders `n` to `w`. */
  method Render(w: Buffer, n: Node, ctx: Ctx)
    modifies w
    ensures w.data == old(w.data) + Output(n, ctx)
    decreases n, 7
  {
    ghost var start := w.data;
    ghost var enter := Rule(n, ctx, true);
    ghost var body := if enter.status == WalkSkipChildren then "" else Children(n, |n.children|);
    var st := Visit(w, n, ctx, true);
    if st != WalkSkipChildren {
      RenderChildren(w, n);
    }
    assert w.data == (start + enter.text) + body;
    ConcatAssoc(start, enter.text, body);
    ghost var exit := Rule(n, ctx, false);
    st := Visit(w, n, ctx, false);
    assert Output(n, ctx) == (enter.text + body) + exit.text;
    ConcatAssoc(start, enter.text + body, exit.text);
  }

  /** Renders every child of `p` in turn, each in its own context. */
  method RenderChildren(w: Buffer, p: Node)
    modifies w
    ensures w.data == old(w.data) + Children(p, |p.children|)
    decreases p, 2
  {
    ghost var start := w.data;
    var i := 0;
    while i < |p.children|
      invariant 0 <= i <= |p.children|
      invariant w.data == start + Children(p, i)
    {
      Render(w, p.children[i], ChildCtx(p, i));
      ConcatAssoc(start, Children(p, i), Output(p.children[i], ChildCtx(p, i)));
      i := i + 1;
    }
  }

  /** Renders the children of `p` into a private buffer and returns what
      it holds. */
  method SubRender(p: Node) returns (body: string)
    ensures body == Children(p, |p.children|)
    decreases p, 3
  {
    var buf := new Buffer();
    RenderChildren(buf, p);
    body := buf.data;
  }

  /** The walk callback. */
  method Visit(w: Buffer, n: Node, ctx: Ctx, entering: bool) returns (st: WalkStatus)
    modifies w
    ensures w.data == old(w.data) + Rule(n, ctx, entering).text
    ensures st == Rule(n, ctx, entering).status
    decreases n, 6
  {
    if IsInline(n) {
      st := VisitInline(w, n, ctx, entering);
    } else {
      st := VisitBlock(w, n, ctx, entering);
    }
  }

  method VisitBlock(w: Buffer, n: Node, ctx: Ctx, entering: bool) returns (st: WalkStatus)
    modifies w
    ensures w.data == old(w.data) + BlockRule(n, ctx, entering).text
    ensures st == BlockRule(n, ctx, entering).status
    decreases n, 5
  {
    st := WalkContinue;
    match n {
      case Heading(level, _) =>
        assert BlockRule(n, ctx, entering) == Step(if entering then HeadingPrefix(level) else "\n\n", WalkContinue);
        if entering { w.Write(HeadingPrefix(level)); } else { w.Write("\n\n"); }
      case Blockquote(_) =>
        if entering {
          var body := SubRender(n);
          assert BlockRule(n, ctx, entering) == Step(Quoted(body), WalkSkipChildren);
          WriteQuoted(w, body);
          st := WalkSkipChildren;
        } else {
          assert BlockRule(n, ctx, entering) == Step("\n\n", WalkContinue);
          w.Write("\n\n");
        }
      case CodeBlock(lines, _) =>
        if entering {
          assert BlockRule(n, ctx, entering) == Step(Fence("", lines), WalkSkipChildren);
          WriteFence(w, "", lines);
          st := WalkSkipChildren;
        } else {
          assert BlockRule(n, ctx, entering) == Step("\n\n", WalkContinue);
          w.Write("\n\n");
        }
      case FencedCodeBlock(info, lines, _) =>
        if entering {
          assert BlockRule(n, ctx, entering) == Step(Fence(if info.Some? then info.value else "", lines), WalkSkipChildren);
          WriteFence(w, if info.Some? then info.value else "", lines);
          st := WalkSkipChildren;
        } else {
          assert BlockRule(n, ctx, entering) == Step("\n\n", WalkContinue);
          w.Write("\n\n");
        }
      case HTMLBlock(_) =>
        assert BlockRule(n, ctx, entering) == Step("", WalkSkipChildren);
        st := WalkSkipChildren;
      case List(isTight, _) =>
        if entering {
          assert BlockRule(n, ctx, entering) == Step(ListText(ItemBodies(n, |n.children|), isTight), WalkSkipChildren);
          RenderList(w, n);
          st := WalkSkipChildren;
        } else {
          assert BlockRule(n, ctx, entering) == Step("", WalkContinue);
        }
      case Paragraph(_) =>
        if !entering {
          ghost var start := w.data;
          ghost var links := LinkSection(n, |n.children|, LinkOnly(n, false)).0;
          assert BlockRule(n, ctx, entering) == Step(links + "\n\n", WalkContinue);
          WriteLinkSection(w, n);
          w.Write("\n\n");
          ConcatAssoc(start, links, "\n\n");
        } else {
          assert BlockRule(n, ctx, entering) == Step("", WalkContinue);
        }
      case TextBlock(_) =>
        assert BlockRule(n, ctx, entering) == Step(if !entering && ctx.next.Some? && |n.children| > 0 then "\n" else "", WalkContinue);
        if !entering && ctx.next.Some? && |n.children| > 0 {
          w.Write("\n");
        }
      case ThematicBreak(_) =>
        assert BlockRule(n, ctx, entering) == Step(if entering then Dashes(80) else "\n\n", WalkContinue);
        if entering { WriteDashes(w, 80); } else { w.Write("\n\n"); }
      case _ =>
    }
  }

  method VisitInline(w: Buffer, n: Node, ctx: Ctx, entering: bool) returns (st: WalkStatus)
    modifies w
    ensures w.data == old(w.data) + InlineRule(n, ctx, entering).text
    ensures st == InlineRule(n, ctx, entering).status
  {
    st := WalkContinue;
    match n {
      case AutoLink(linkLabel, _) =>
        var linkOnly := ScanParentLinkOnly(ctx, false);
        if linkOnly {
          st := WalkSkipChildren;
        } else if entering {
          w.Write(linkLabel);
        }
      case Link(_, _) =>
        var linkOnly := ScanParentLinkOnly(ctx, false);
        if linkOnly {
          st := WalkSkipChildren;
        }
      case Image(destination, _) =>
        if entering {
          w.Write("=> ");
          w.Write(destination + " ");
        } else if ctx.next.Some? && |n.children| > 0 {
          w.Write("\n");
        }
      case RawHTML(_) => st := WalkSkipChildren;
      case Text(segment, softLineBreak, hardLineBreak, _) =>
        var linkOnly := ScanParentLinkOnly(ctx, false);
        if linkOnly {
          st := WalkSkipChildren;
        } else if entering {
          w.Write(segment);
          if softLineBreak && !(ctx.next.Some? && ctx.next.value.Image?) {
            w.Write(" ");
          }
          if hardLineBreak {
            w.Write("\n");
          }
        }
      case String(value, _) =>
        if entering {
          w.Write(value);
        }
      case _ =>
    }
  }

  /** Writes every list item: its children rendered into `buf`, trimmed,
      re-prefixed, then `buf` emptied; a tight list ends with a newline. */
  method RenderList(w: Buffer, n: Node)
    requires n.List?
    modifies w
    ensures w.data == old(w.data) + ListText(ItemBodies(n, |n.children|), n.isTight)
    decreases n, 4
  {
    var tight := n.isTight;
    ghost var start := w.data;
    var buf := new Buffer();
    var i := 0;
    while i < |n.children|
      invariant 0 <= i <= |n.children|
      invariant buf.data == [] && buf != w
      invariant w.data == start + Flatten(ListItems(ItemBodies(n, i), tight))
    {
      WriteItem(w, buf, n.children[i], tight);
      ItemsStep(start, n, i, tight);
      i := i + 1;
    }
    assert w.data == start + Flatten(ListItems(ItemBodies(n, |n.children|), tight));
    if tight {
      w.Write("\n");
    }
  }

  /** Renders one list item's children into `buf`, writes the item, and
      empties `buf` again. */
  method WriteItem(w: Buffer, buf: Buffer, item: Node, tight: bool)
    requires buf.data == [] && buf != w
    modifies w, buf
    ensures buf.data == []
    ensures w.data == old(w.data) + ListItemText(Children(item, |item.children|), tight)
    decreases item, 3
  {
    ghost var before := w.data;
    RenderChildren(buf, item);
    var text := buf.data;
    assert text == Children(item, |item.children|);
    buf.Reset();
    assert w.data == before;
    WriteListItem(w, text, tight);
  }

  /** The paragraph's exit loop: a link line for every link and autolink
      child, each preceded by its separator. The link-only test is the
      same for every child, so it is made once. */
  method WriteLinkSection(w: Buffer, p: Node)
    modifies w
    ensures w.data == old(w.data) + LinkSection(p, |p.children|, LinkOnly(p, false)).0
    decreases p, 4
  {
    var linkOnly := ScanLinkOnly(p, false);
    var firstLink := true;
    var i := 0;
    while i < |p.children|
      invariant 0 <= i <= |p.children|
      invariant w.data == old(w.data) + LinkSection(p, i, linkOnly).0
      invariant firstLink == LinkSection(p, i, linkOnly).1
    {
      var child := p.children[i];
      LinkSectionStep(p, i, linkOnly);
      if child.Link? || child.AutoLink? {
        var sep := Separator(linkOnly, firstLink);
        w.Write(sep);
        WriteLinkLine(w, child);
        ConcatAssoc(old(w.data) + LinkSection(p, i, linkOnly).0, sep, LinkLine(child));
        ConcatAssoc(old(w.data), LinkSection(p, i, linkOnly).0, sep + LinkLine(child));
        ConcatAssoc(LinkSection(p, i, linkOnly).0, sep, LinkLine(child));
        firstLink := false;
      }
      i := i + 1;
    }
  }

  /** Writes the link line of a link or autolink child: a link's text is
      its children rendered into a private buffer and trimmed. */
  method WriteLinkLine(w: Buffer, c: Node)
    requires IsLinkLine(c)
    modifies w
    ensures w.data == old(w.data) + LinkLine(c)
    decreases c, 4
  {
    if c.Link? {
      var text := SubRender(c);
      w.Write("=> " + c.destination + " " + TrimSpace(text));
    } else {
      w.Write("=> " + c.linkLabel);
    }
  }

  // =====================================================================
  // Lemmas
  // =====================================================================

  /** One more child: a link line with its separator, or nothing. */
  lemma LinkSectionStep(p: Node, i: nat, linkOnly: bool)
    requires i < |p.children|
    ensures var c := p.children[i];
            var (text, first) := LinkSection(p, i, linkOnly);
            LinkSection(p, i + 1, linkOnly)
            == if IsLinkLine(c) then (text + Separator(linkOnly, first) + LinkLine(c), false) else (text, first)
  {
  }

  /** One more item body adds that item's text at the end. */
  lemma ItemsStep(prefix: string, n: Node, i: nat, tight: bool)
    requires i < |n.children|
    ensures prefix + Flatten(ListItems(ItemBodies(n, i + 1), tight))
            == (prefix + Flatten(ListItems(ItemBodies(n, i), tight)))
               + ListItemText(Children(n.children[i], |n.children[i].children|), tight)
  {
    var body := Children(n.children[i], |n.children[i].children|);
    ListItemsSnoc(ItemBodies(n, i), body, tight);
    ConcatAssoc(prefix, Flatten(ListItems(ItemBodies(n, i), tight)), ListItemText(body, tight));
  }

  /** The exit loop writes the link lines one per line, after a blank line
      unless the paragraph is link-only; its flag stays set exactly while
      there is no line. */
  lemma {:induction false} LinkSectionLines(p: Node, k: nat, linkOnly: bool)
    requires k <= |p.children|
    ensures var ls := LinkLines(p, k);
            LinkSection(p, k, linkOnly).0
            == (if ls == [] then "" else (if linkOnly then "" else "\n\n") + Join(ls))
    ensures LinkSection(p, k, linkOnly).1 == (LinkLines(p, k) == [])
    decreases k
  {
    if k > 0 {
      LinkSectionLines(p, k - 1, linkOnly);
      LinkSectionStep(p, k - 1, linkOnly);
      var c := p.children[k - 1];
      var ls := LinkLines(p, k - 1);
      var (text, first) := LinkSection(p, k - 1, linkOnly);
      var lead := if linkOnly then "" else "\n\n";
      if IsLinkLine(c) {
        var l := LinkLine(c);
        var sep := Separator(linkOnly, first);
        assert sep == (if ls == [] then lead else "\n");
        assert text == (if ls == [] then "" else lead + Join(ls));
        assert LinkSection(p, k, linkOnly) == (text + sep + l, false);
        assert LinkLines(p, k) == ls + [l];
        assert |ls + [l]| > 0;
        JoinLead(lead, ls, l);
        var now := LinkLines(p, k);
        assert now == ls + [l] && now != [];
        assert LinkSection(p, k, linkOnly).0 == lead + Join(now);
        assert LinkSection(p, k, linkOnly).1 == false;
      } else {
        assert LinkSection(p, k, linkOnly) == (text, first);
        assert LinkLines(p, k) == ls;
        assert first == (ls == []);
      }
    }
  }

  /** render.go's autolink separator joins the lines of two autolinks in a
      prose paragraph into one: "see " followed by autolinks a and b gives
      "=> a=> b" where the link lines "=> a" and "=> b" were meant. */
  lemma AutoLinkSeparatorCounterexample()
    ensures var p := Paragraph([Text("see ", false, false, []), AutoLink("a", []), AutoLink("b", [])]);
            !LinkOnly(p, false)
            && LinkSectionAsWritten(p, 3, false).0 == "\n\n=> a=> b"
            && LinkSection(p, 3, false).0 == "\n\n=> a\n=> b"
            && LinkLines(p, 3) == ["=> a", "=> b"]
  {
    var p := Paragraph([Text("see ", false, false, []), AutoLink("a", []), AutoLink("b", [])]);
    assert IsProse(p.children[0]);
    assert !LinkOnly(p, false);
    assert LinkLine(p.children[1]) == "=> a";
    assert LinkLine(p.children[2]) == "=> b";
    assert LinkLines(p, 1) == [];
    assert LinkLines(p, 2) == ["=> a"];
    assert LinkLines(p, 3) == ["=> a", "=> b"];
  }

  /** No autolink child follows an earlier link line: the paragraphs on
      which render.go's autolink separator and the corrected one agree. */
  predicate NoLateAutoLink(p: Node)
  {
    forall i :: 0 <= i < |p.children| && p.children[i].AutoLink? ==> LinkLines(p, i) == []
  }

  /** The exit loop as written and as corrected give the same text and the
      same flag in a link-only paragraph, and in any paragraph in which no
      autolink among the first `k` children follows an earlier link line. */
  lemma {:induction false} LinkSectionAgrees(p: Node, k: nat, linkOnly: bool)
    requires k <= |p.children|
    requires linkOnly || forall i :: 0 <= i < k && p.children[i].AutoLink? ==> LinkLines(p, i) == []
    ensures LinkSectionAsWritten(p, k, linkOnly) == LinkSection(p, k, linkOnly)
    decreases k
  {
    if k > 0 {
      LinkSectionAgrees(p, k - 1, linkOnly);
      LinkSectionLines(p, k - 1, linkOnly);
      var c := p.children[k - 1];
      var prev := LinkSection(p, k - 1, linkOnly);
      assert LinkSectionAsWritten(p, k - 1, linkOnly) == prev;
      if c.Link? {
        assert LinkSection(p, k, linkOnly) == (prev.0 + Separator(linkOnly, prev.1) + LinkLine(c), false);
        assert LinkSectionAsWritten(p, k, linkOnly) == (prev.0 + Separator(linkOnly, prev.1) + LinkLine(c), false);
      } else if c.AutoLink? {
        assert !linkOnly ==> LinkLines(p, k - 1) == [];
        assert AutoLinkSeparatorAsWritten(linkOnly, prev.1) == Separator(linkOnly, prev.1);
        assert LinkSection(p, k, linkOnly) == (prev.0 + Separator(linkOnly, prev.1) + LinkLine(c), false);
        assert LinkSectionAsWritten(p, k, linkOnly)
               == (prev.0 + AutoLinkSeparatorAsWritten(linkOnly, prev.1) + LinkLine(c), false);
      } else {
        assert LinkSection(p, k, linkOnly) == prev;
        assert LinkSectionAsWritten(p, k, linkOnly) == prev;
      }
    }
  }

  /** Outside the finding, the model renders a paragraph exactly as
      render.go's exit loop writes it: a link-only paragraph, or one in
      which no autolink follows an earlier link line, is its children, the
      as-written link section and a blank line. */
  lemma ParagraphAsWritten(n: Node, ctx: Ctx)
    requires n.Paragraph?
    requires LinkOnly(n, false) || NoLateAutoLink(n)
    ensures Output(n, ctx)
            == Children(n, |n.children|) + LinkSectionAsWritten(n, |n.children|, LinkOnly(n, false)).0 + "\n\n"
  {
    ParagraphWalk(n, ctx);
    LinkSectionAgrees(n, |n.children|, LinkOnly(n, false));
  }

  /** A child that falls silent under a link-only parent. */
  predicate LinkOrText(c: Node)
  {
    c.Link? || c.AutoLink? || c.Text?
  }

  /** Under a link-only parent, links, autolinks and texts render to
      nothing; elsewhere a link is its children, an autolink its label. */
  lemma LinksUnderParent(n: Node, ctx: Ctx)
    requires LinkOrText(n)
    ensures ParentLinkOnly(ctx, false) ==> Output(n, ctx) == ""
    ensures !ParentLinkOnly(ctx, false) && n.Link? ==> Output(n, ctx) == Children(n, |n.children|)
    ensures !ParentLinkOnly(ctx, false) && n.AutoLink?
            ==> Output(n, ctx) == n.linkLabel + Children(n, |n.children|)
  {
    assert Rule(n, ctx, true) == InlineRule(n, ctx, true);
    assert Rule(n, ctx, false) == InlineRule(n, ctx, false);
  }

  /** Under a link-only parent, children that are links, autolinks or
      texts render to nothing. */
  lemma {:induction false} LinkOnlyChildrenSilent(p: Node, k: nat)
    requires k <= |p.children|
    requires LinkOnly(p, false)
    requires forall i :: 0 <= i < |p.children| ==> LinkOrText(p.children[i])
    ensures Children(p, k) == ""
    decreases k
  {
    if k > 0 {
      LinkOnlyChildrenSilent(p, k - 1);
      var ctx := ChildCtx(p, k - 1);
      assert ParentLinkOnly(ctx, false);
      LinksUnderParent(p.children[k - 1], ctx);
    }
  }

  /** The walk over a paragraph: its children, then its link section and
      a blank line. */
  lemma ParagraphWalk(n: Node, ctx: Ctx)
    requires n.Paragraph?
    ensures Output(n, ctx) == Children(n, |n.children|) + LinkSection(n, |n.children|, LinkOnly(n, false)).0 + "\n\n"
  {
    assert Rule(n, ctx, true) == BlockRule(n, ctx, true);
    assert Rule(n, ctx, false) == BlockRule(n, ctx, false);
  }

  /** A paragraph of links and texts, at least one a link, renders as its
      link lines one per line, then a blank line. */
  lemma LinkOnlyParagraph(n: Node, ctx: Ctx)
    requires n.Paragraph? && LinkOnly(n, false)
    requires forall i :: 0 <= i < |n.children| ==> LinkOrText(n.children[i])
    ensures Output(n, ctx) == Join(LinkLines(n, |n.children|)) + "\n\n"
  {
    ParagraphWalk(n, ctx);
    LinkOnlyChildrenSilent(n, |n.children|);
    LinkSectionLines(n, |n.children|, LinkOnly(n, false));
    var i :| 0 <= i < |n.children| && IsLinkChild(n.children[i], false);
    LinkLinesHasLink(n, |n.children|, i);
  }

  /** A link among the first `k` children gives a link line. */
  lemma {:induction false} LinkLinesHasLink(p: Node, k: nat, i: nat)
    requires i < k <= |p.children| && IsLinkLine(p.children[i])
    ensures LinkLines(p, k) != []
    decreases k
  {
    if i < k - 1 {
      LinkLinesHasLink(p, k - 1, i);
    }
  }

  /** A prose paragraph renders its children inline, then a blank line and
      its link lines one per line if it has any, then a blank line. */
  lemma ProseParagraph(n: Node, ctx: Ctx)
    requires n.Paragraph? && !LinkOnly(n, false)
    ensures var ls := LinkLines(n, |n.children|);
            Output(n, ctx) == Children(n, |n.children|) + (if ls == [] then "" else "\n\n" + Join(ls)) + "\n\n"
  {
    ParagraphWalk(n, ctx);
    LinkSectionLines(n, |n.children|, LinkOnly(n, false));
  }

  /** A heading is its marker, its children and a blank line; a heading
      made only of links and texts therefore loses its links entirely. */
  lemma HeadingOutput(n: Node, ctx: Ctx)
    requires n.Heading?
    ensures Output(n, ctx) == HeadingPrefix(n.level) + Children(n, |n.children|) + "\n\n"
    ensures LinkOnly(n, false) && (forall i :: 0 <= i < |n.children| ==> LinkOrText(n.children[i]))
            ==> Output(n, ctx) == HeadingPrefix(n.level) + "\n\n"
  {
    assert Rule(n, ctx, true) == BlockRule(n, ctx, true);
    assert Rule(n, ctx, false) == BlockRule(n, ctx, false);
    if LinkOnly(n, false) && (forall i :: 0 <= i < |n.children| ==> LinkOrText(n.children[i])) {
      LinkOnlyChildrenSilent(n, |n.children|);
    }
  }

  /** A blockquote renders as its children's output, trimmed and quoted
      line by line, then a blank line. */
  lemma BlockquoteOutput(n: Node, ctx: Ctx)
    requires n.Blockquote?
    ensures Output(n, ctx) == Quoted(Children(n, |n.children|)) + "\n\n"
  {
    assert Rule(n, ctx, true) == BlockRule(n, ctx, true);
    assert Rule(n, ctx, false) == BlockRule(n, ctx, false);
    assert Rule(n, ctx, true) == Step(Quoted(Children(n, |n.children|)), WalkSkipChildren);
  }

  /** A list renders as its items, each from its children's output. */
  lemma ListOutput(n: Node, ctx: Ctx)
    requires n.List?
    ensures Output(n, ctx) == ListText(ItemBodies(n, |n.children|), n.isTight)
  {
    assert Rule(n, ctx, true) == BlockRule(n, ctx, true);
    assert Rule(n, ctx, false) == BlockRule(n, ctx, false);
    assert Rule(n, ctx, false) == Step("", WalkContinue);
  }

  /** A thematic break renders as 80 dashes, its children and a blank
      line. */
  lemma ThematicBreakOutput(n: Node, ctx: Ctx)
    requires n.ThematicBreak?
    ensures Output(n, ctx) == Dashes(80) + Children(n, |n.children|) + "\n\n"
  {
    assert Rule(n, ctx, true) == BlockRule(n, ctx, true);
    assert Rule(n, ctx, false) == BlockRule(n, ctx, false);
    assert Rule(n, ctx, true) == Step(Dashes(80), WalkContinue);
  }

  /** Code blocks render as their fenced lines and a blank line. */
  lemma CodeBlockOutput(n: Node, ctx: Ctx)
    requires n.CodeBlock? || n.FencedCodeBlock?
    ensures n.CodeBlock? ==> Output(n, ctx) == Fence("", n.lines) + "\n\n"
    ensures n.FencedCodeBlock? ==> Output(n, ctx) == Fence(if n.info.Some? then n.info.value else "", n.lines) + "\n\n"
  {
    var info := if n.FencedCodeBlock? && n.info.Some? then n.info.value else "";
    assert Rule(n, ctx, true) == BlockRule(n, ctx, true) == Step(Fence(info, n.lines), WalkSkipChildren);
    assert Rule(n, ctx, false) == BlockRule(n, ctx, false) == Step("\n\n", WalkContinue);
  }

  /** HTML blocks and raw HTML render to nothing, children included. */
  lemma HTMLOutput(n: Node, ctx: Ctx)
    requires n.HTMLBlock? || n.RawHTML?
    ensures Output(n, ctx) == ""
  {
    if n.RawHTML? {
      assert Rule(n, ctx, true) == InlineRule(n, ctx, true) == Step("", WalkSkipChildren);
      assert Rule(n, ctx, false) == InlineRule(n, ctx, false) == Step("", WalkSkipChildren);
    } else {
      assert Rule(n, ctx, true) == BlockRule(n, ctx, true) == Step("", WalkSkipChildren);
      assert Rule(n, ctx, false) == BlockRule(n, ctx, false) == Step("", WalkSkipChildren);
    }
  }

  /** A text under a link-only parent renders to nothing; elsewhere its
      segment, a space for a soft break unless an image follows, and a
      newline for a hard break. */
  lemma TextOutput(n: Node, ctx: Ctx)
    requires n.Text?
    ensures ParentLinkOnly(ctx, false) ==> Output(n, ctx) == ""
    ensures !ParentLinkOnly(ctx, false)
            ==> Output(n, ctx)
                == n.segment + (if n.softLineBreak && !NextIsImage(ctx) then " " else "")
                   + (if n.hardLineBreak then "\n" else "") + Children(n, |n.children|)
  {
  }

  /** Code spans, emphasis, strikethrough and wiki links are their
      children alone. */
  lemma SpansAreTransparent(n: Node, ctx: Ctx)
    requires n.CodeSpan? || n.Emphasis? || n.Strikethrough? || n.Wiki?
    ensures Output(n, ctx) == Children(n, |n.children|)
  {
  }
}
