/** The GemRenderer's configuration and the collaborators it calls but
    whose code is not part of this model: the glyph substitutions, the
    link-line printer and the default rule string. */
module Config {
  import opened Ast
  import opened Bytes

  /** How a heading whose children are only links is rendered. */
  datatype HeadingLink = HeadingLinkOff | HeadingLinkBelow | HeadingLinkAuto

  /** One or two newlines after a heading. */
  datatype HeadingSpace = HeadingSpaceSingle | HeadingSpaceDouble

  /** Where the links of a prose paragraph go. */
  datatype ParagraphLink = ParagraphLinkOff | ParagraphLinkBelow | ParagraphLinkCurlyBelow

  datatype EmphasisMode = EmphasisOff | EmphasisMarkdown | EmphasisUnicode

  datatype StrikethroughMode = StrikethroughOff | StrikethroughMarkdown | StrikethroughUnicode

  datatype CodeSpanMode = CodeSpanOff | CodeSpanMarkdown

  /** Which kind of link a destination rewrite applies to. */
  datatype LinkKind = LinkMarkdown | LinkWiki | LinkAuto | LinkImage

  /** A destination rewrite: the pattern is a regular expression, kept as
      its text because the rewrite itself happens inside the link printer. */
  datatype LinkReplacer = LinkReplacer(kind: LinkKind, pattern: string, replacement: string)

  datatype Config = Config(
    headingLink: HeadingLink,
    headingSpace: HeadingSpace,
    paragraphLink: ParagraphLink,
    emphasis: EmphasisMode,
    strikethrough: StrikethroughMode,
    codeSpan: CodeSpanMode,
    horizontalRule: string,
    linkReplacers: seq<LinkReplacer>)

  /** The collaborators: `italicSans`, `boldSans` and `strike` are the glyph
      substitutions; `linkPrint(node, replacers, format)` is the link-line
      printer, giving the line it writes or None when it writes nothing;
      `hr` is the default rule string. */
  datatype Env = Env(
    italicSans: string -> string,
    boldSans: string -> string,
    strike: string -> string,
    linkPrint: (Node, seq<LinkReplacer>, string) -> Option<string>,
    hr: string)

  /** A renderer: its configuration and its collaborators. */
  datatype GemRenderer = GemRenderer(config: Config, env: Env)

  /** The configuration `New()` builds when given no options. */
  function Defaults(env: Env): (c: Config)
    ensures c.headingLink == HeadingLinkAuto && c.headingSpace == HeadingSpaceDouble
    ensures c.paragraphLink == ParagraphLinkBelow
    ensures c.emphasis == EmphasisOff && c.strikethrough == StrikethroughOff && c.codeSpan == CodeSpanOff
    ensures c.horizontalRule == env.hr && c.linkReplacers == []
  {
    Config(HeadingLinkAuto, HeadingSpaceDouble, ParagraphLinkBelow,
           EmphasisOff, StrikethroughOff, CodeSpanOff, env.hr, [])
  }

  /** The renderer a blockquote or list builds to render its children:
      same collaborators, default configuration. */
  function New(r: GemRenderer): (sub: GemRenderer)
    ensures sub.env == r.env && sub.config == Defaults(r.env)
  {
    GemRenderer(Defaults(r.env), r.env)
  }

  /** The format `linkPrint` is handed for a paragraph's links. */
  function ParagraphFormat(c: Config): (f: string)
    ensures f == "{%s}" <==> c.paragraphLink == ParagraphLinkCurlyBelow
    ensures f != "{%s}" ==> f == ""
  {
    if c.paragraphLink == ParagraphLinkCurlyBelow then "{%s}" else ""
  }

  /** Calls the link printer for `n`, writing what it prints to `w`;
      `ok` tells whether it printed. */
  method LinkPrint(r: GemRenderer, w: Buffer, n: Node, format: string) returns (ok: bool)
    modifies w
    ensures ok == r.env.linkPrint(n, r.config.linkReplacers, format).Some?
    ensures w.data == old(w.data) + (if ok then r.env.linkPrint(n, r.config.linkReplacers, format).value else "")
  {
    var line := r.env.linkPrint(n, r.config.linkReplacers, format);
    ok := line.Some?;
    if ok {
      w.Write(line.value);
    }
  }
}
