/** Gemtext line shapes both renderers produce: heading markers, quoted
    blockquote lines, list items with their continuation indent, code
    fences and the dashed rule. The line-level facts about them are proved
    here once. */
module Gemtext {
  import opened Bytes

  /** The heading marker: Gemtext has three heading ranks, so levels 1 and
      2 keep theirs and every other level becomes rank 3. */
  function HeadingPrefix(level: int): (p: string)
    ensures |p| - 1 == (if level == 1 || level == 2 then level else 3)
    ensures p[|p| - 1] == ' '
    ensures forall k :: 0 <= k < |p| - 1 ==> p[k] == '#'
  {
    match level
    case 1 => "# "
    case 2 => "## "
    case _ => "### "
  }

  // ---------------------------------------------------------------------
  // Blockquote lines
  // ---------------------------------------------------------------------

  /** One line of a blockquote: '>', then a space unless the line is empty
      or already starts with '>' (a nested quote) or '\n' (a blank line). */
  function Quote(line: string): string
  {
    ">" + (if |line| > 0 && line[0] != '>' && line[0] != '\n' then " " else "") + line
  }

  function QuoteEach(ls: seq<string>): (qs: seq<string>)
    ensures |qs| == |ls|
  {
    seq(|ls|, i requires 0 <= i < |ls| => Quote(ls[i]))
  }

  /** What a blockquote writes on entry for the sub-rendered `body`. */
  function Quoted(body: string): string
  {
    Flatten(QuoteEach(SplitAfter(TrimSpace(body))))
  }

  /** Strips what Quote added. */
  function Unquote(q: string): string
    requires |q| > 0
  {
    var rest := q[1..];
    if |rest| > 0 && rest[0] == ' ' then rest[1..] else rest
  }

  lemma UnquoteQuote(line: string)
    ensures Unquote(Quote(line)) == line
  {
    var q := Quote(line);
    if |line| > 0 && line[0] != '>' && line[0] != '\n' {
      assert q[1..] == " " + line;
    } else {
      assert q[1..] == line;
    }
  }

  lemma QuoteKeepsShape(l: string)
    ensures IsLine(l) ==> IsLine(Quote(l))
    ensures NoNewline(l) ==> NoNewline(Quote(l))
  {
    var q := Quote(l);
    var pre := if |l| > 0 && l[0] != '>' && l[0] != '\n' then "> " else ">";
    assert q == pre + l;
    if IsLine(l) {
      assert q[..|q| - 1] == pre + l[..|l| - 1];
    }
  }

  lemma QuoteEachKeepsShape(ls: seq<string>)
    requires IsLines(ls)
    ensures IsLines(QuoteEach(ls))
  {
    var qs := QuoteEach(ls);
    forall i | 0 <= i < |qs| - 1 ensures IsLine(qs[i]) { QuoteKeepsShape(ls[i]); }
    QuoteKeepsShape(ls[|ls| - 1]);
  }

  /** Read back line by line, a blockquote's output is exactly its trimmed
      body's lines, each behind a '>' marker; removing the markers gives
      the lines back. */
  lemma QuotedLines(body: string)
    ensures var ls := SplitAfter(TrimSpace(body));
            var out := SplitAfter(Quoted(body));
            out == QuoteEach(ls)
            && (forall i :: 0 <= i < |out| ==> |out[i]| > 0 && out[i][0] == '>' && Unquote(out[i]) == ls[i])
  {
    var ls := SplitAfter(TrimSpace(body));
    SplitAfterShape(TrimSpace(body));
    QuoteEachKeepsShape(ls);
    SplitAfterFlatten(QuoteEach(ls));
    forall i | 0 <= i < |ls| ensures Unquote(Quote(ls[i])) == ls[i] { UnquoteQuote(ls[i]); }
  }

  /** Writes the quoted lines of `body`, as the blockquote entry rule
      does: trim, cut after each '\n', then quote line by line. */
  method WriteQuoted(w: Buffer, body: string)
    modifies w
    ensures w.data == old(w.data) + Quoted(body)
  {
    var text := TrimSpace(body);
    var lines := SplitAfter(text);
    WriteQuotedLines(w, lines);
  }

  method WriteQuotedLines(w: Buffer, lines: seq<string>)
    modifies w
    ensures w.data == old(w.data) + Flatten(QuoteEach(lines))
  {
    ghost var start := w.data;
    ghost var qs := QuoteEach(lines);
    var i := 0;
    while i < |lines|
      invariant 0 <= i <= |lines|
      invariant w.data == start + Flatten(qs[..i])
    {
      WriteQuote(w, lines[i]);
      assert qs[i] == Quote(lines[i]);
      FlattenSnoc(qs, i);
      ConcatAssoc(start, Flatten(qs[..i]), qs[i]);
      i := i + 1;
    }
    assert qs[..|lines|] == qs;
  }

  /** Writes one quoted line: the marker, a space unless the line is
      blank or already quoted, and the line. */
  method WriteQuote(w: Buffer, line: string)
    modifies w
    ensures w.data == old(w.data) + Quote(line)
  {
    ghost var start := w.data;
    w.Write(">");
    if |line| > 0 && line[0] != '>' && line[0] != '\n' {
      w.Write(" ");
      w.Write(line);
      assert w.data == ((start + ">") + " ") + line;
      assert Quote(line) == (">" + " ") + line;
    } else {
      w.Write(line);
      assert w.data == (start + ">") + line;
      assert Quote(line) == ">" + line;
    }
  }

  // ---------------------------------------------------------------------
  // List items
  // ---------------------------------------------------------------------

  /** The i-th line of a list item: lines after the first get a two-space
      indent unless they are empty or blank. */
  function Indent(i: int, line: string): string
  {
    if i > 0 && |line| > 0 && line[0] != '\n' then "  " + line else line
  }

  function IndentEach(ls: seq<string>): (out: seq<string>)
    ensures |out| == |ls|
  {
    seq(|ls|, i requires 0 <= i < |ls| => Indent(i, ls[i]))
  }

  /** Strips what Indent added. */
  function Dedent(i: int, p: string): string
  {
    if i > 0 && |p| >= 2 && p[..2] == "  " then p[2..] else p
  }

  /** What a list writes for one item whose children rendered to `body`:
      "* ", the trimmed lines with their indent, "\n", and one more "\n"
      when the list is loose. */
  function ListItemText(body: string, tight: bool): string
  {
    "* " + ItemBody(body) + "\n" + (if tight then "" else "\n")
  }

  /** An item starts with "* " and ends with a newline, or with a blank
      line when the list is loose. */
  lemma ListItemShape(body: string, tight: bool)
    ensures var r := ListItemText(body, tight);
            |r| >= 3 && r[..2] == "* "
            && (tight ==> r[|r| - 1] == '\n')
            && (!tight ==> r[|r| - 2..] == "\n\n")
  {
  }

  /** The indented lines of the trimmed body. */
  function ItemBody(body: string): string
  {
    Flatten(IndentEach(SplitAfter(TrimSpace(body))))
  }

  lemma IndentKeepsShape(i: int, l: string)
    ensures IsLine(l) ==> IsLine(Indent(i, l))
    ensures NoNewline(l) ==> NoNewline(Indent(i, l))
    ensures Dedent(i, Indent(i, l)) == l
  {
    var p := Indent(i, l);
    if i > 0 && |l| > 0 && l[0] != '\n' {
      assert p[..2] == "  " && p[2..] == l;
      if IsLine(l) {
        assert p[..|p| - 1] == "  " + l[..|l| - 1];
      }
    }
  }

  /** A trimmed text cut into lines never ends with an empty piece unless
      it is the only one. */
  lemma LastLineNonEmpty(t: string)
    requires t == [] || !IsSpace(t[|t| - 1])
    ensures var ls := SplitAfter(t); |ls| > 1 ==> ls[|ls| - 1] != ""
  {
    var ls := SplitAfter(t);
    SplitAfterShape(t);
    if |ls| > 1 {
      EmptyLastPiece(ls);
    }
  }

  /** When the last of several pieces is empty, the joined text ends with
      the newline that closes the piece before it. */
  lemma EmptyLastPiece(ls: seq<string>)
    requires |ls| > 1 && IsLine(ls[|ls| - 2])
    ensures ls[|ls| - 1] == "" ==> |Flatten(ls)| > 0 && Flatten(ls)[|Flatten(ls)| - 1] == '\n'
  {
    var n := |ls|;
    if ls[n - 1] == "" {
      assert ls == ls[..n - 2] + [ls[n - 2], ls[n - 1]];
      FlattenAppend(ls[..n - 2], [ls[n - 2], ls[n - 1]]);
      assert [ls[n - 2], ls[n - 1]][1..] == [ls[n - 1]];
      assert Flatten([ls[n - 1]]) == ls[n - 1];
      assert Flatten([ls[n - 2], ls[n - 1]]) == ls[n - 2] + ls[n - 1];
      assert Flatten(ls) == Flatten(ls[..n - 2]) + ls[n - 2];
    }
  }

  /** A continuation line, once indented, is a blank line or starts with
      the two-space indent. */
  lemma ContinuationLine(i: int, l: string)
    requires i > 0 && l != ""
    requires IsLine(l) || NoNewline(l)
    ensures Indent(i, l) == "\n" || (|Indent(i, l)| > 2 && Indent(i, l)[..2] == "  ")
  {
    if l[0] == '\n' {
      assert l == "\n";
    } else {
      assert Indent(i, l) == "  " + l;
    }
  }

  /** Indenting keeps the line shape, so the indented lines read back as
      themselves; each line after the first is blank or carries the indent,
      and dedenting gives the original line. */
  lemma IndentedLines(ls: seq<string>)
    requires IsLines(ls)
    requires |ls| > 1 ==> ls[|ls| - 1] != ""
    ensures var out := IndentEach(ls);
            SplitAfter(Flatten(out)) == out
            && (forall i :: 1 <= i < |out| ==> out[i] == "\n" || (|out[i]| > 2 && out[i][..2] == "  "))
            && (forall i :: 0 <= i < |out| ==> Dedent(i, out[i]) == ls[i])
  {
    var out := IndentEach(ls);
    forall i | 0 <= i < |ls| - 1 ensures IsLine(out[i]) {
      IndentKeepsShape(i, ls[i]);
    }
    IndentKeepsShape(|ls| - 1, ls[|ls| - 1]);
    assert IsLines(out);
    SplitAfterFlatten(out);
    forall i | 1 <= i < |out| ensures out[i] == "\n" || (|out[i]| > 2 && out[i][..2] == "  ") {
      ContinuationLine(i, ls[i]);
    }
    forall i | 0 <= i < |out| ensures Dedent(i, out[i]) == ls[i] {
      IndentKeepsShape(i, ls[i]);
    }
  }

  /** Read back line by line, a list item's text after "* " is exactly the
      indented lines of its trimmed body: every line after the first is a
      blank line or starts with the two-space indent, and removing the
      indent gives the body's lines back. */
  lemma ItemLines(body: string)
    ensures var ls := SplitAfter(TrimSpace(body));
            var out := SplitAfter(Flatten(IndentEach(ls)));
            out == IndentEach(ls)
            && (forall i :: 1 <= i < |out| ==> out[i] == "\n" || (|out[i]| > 2 && out[i][..2] == "  "))
            && (forall i :: 0 <= i < |out| ==> Dedent(i, out[i]) == ls[i])
  {
    SplitAfterShape(TrimSpace(body));
    TrimSpaceEnds(body);
    LastLineNonEmpty(TrimSpace(body));
    IndentedLines(SplitAfter(TrimSpace(body)));
  }

  /** Writes one list item, as the list entry rule does for each child. */
  method WriteListItem(w: Buffer, body: string, tight: bool)
    modifies w
    ensures w.data == old(w.data) + ListItemText(body, tight)
  {
    ghost var start := w.data;
    w.Write("* ");
    var text := TrimSpace(body);
    var lines := SplitAfter(text);
    WriteIndentedLines(w, lines);
    ghost var item := ItemBody(body);
    assert w.data == (start + "* ") + item;
    ConcatAssoc(start, "* ", item);
    ghost var close := if tight then "\n" else "\n\n";
    if tight {
      w.Write("\n");
    } else {
      w.Write("\n");
      w.Write("\n");
      ConcatAssoc(start + ("* " + item), "\n", "\n");
    }
    assert w.data == (start + ("* " + item)) + close;
    assert ListItemText(body, tight) == ("* " + item) + close;
    ConcatAssoc(start, "* " + item, close);
  }

  method WriteIndentedLines(w: Buffer, lines: seq<string>)
    modifies w
    ensures w.data == old(w.data) + Flatten(IndentEach(lines))
  {
    ghost var start := w.data;
    ghost var out := IndentEach(lines);
    var i := 0;
    while i < |lines|
      invariant 0 <= i <= |lines|
      invariant w.data == start + Flatten(out[..i])
    {
      WriteIndented(w, i, lines[i]);
      assert out[i] == Indent(i, lines[i]);
      FlattenSnoc(out, i);
      ConcatAssoc(start, Flatten(out[..i]), out[i]);
      i := i + 1;
    }
    assert out[..|lines|] == out;
  }

  /** Writes one line of an item body, indented unless it is the first. */
  method WriteIndented(w: Buffer, i: int, line: string)
    modifies w
    ensures w.data == old(w.data) + Indent(i, line)
  {
    if i > 0 && |line| > 0 && line[0] != '\n' {
      w.Write("  ");
      w.Write(line);
      ConcatAssoc(old(w.data), "  ", line);
    } else {
      w.Write(line);
    }
  }

  /** The items of a list, one per sub-rendered body. */
  function ListItems(bodies: seq<string>, tight: bool): (items: seq<string>)
    ensures |items| == |bodies|
  {
    seq(|bodies|, i requires 0 <= i < |bodies| => ListItemText(bodies[i], tight))
  }

  /** The items of a list one after the other, and, for a tight list, the
      single "\n" that closes it. */
  function ListText(bodies: seq<string>, tight: bool): string
  {
    Flatten(ListItems(bodies, tight)) + (if tight then "\n" else "")
  }

  /** One more body adds one more item at the end. */
  lemma ListItemsSnoc(bodies: seq<string>, b: string, tight: bool)
    ensures Flatten(ListItems(bodies + [b], tight)) == Flatten(ListItems(bodies, tight)) + ListItemText(b, tight)
  {
    var items := ListItems(bodies + [b], tight);
    assert items == ListItems(bodies, tight) + [ListItemText(b, tight)];
    FlattenAppend(ListItems(bodies, tight), [ListItemText(b, tight)]);
    assert Flatten([ListItemText(b, tight)]) == ListItemText(b, tight) + Flatten([]);
  }

  // ---------------------------------------------------------------------
  // Code blocks and rules
  // ---------------------------------------------------------------------

  /** A code block: a fence with the info string, the body lines verbatim,
      and the closing fence (the newline after it is the exit rule's). */
  function Fence(info: string, lines: seq<string>): (r: string)
    ensures |r| == 7 + |info| + |Flatten(lines)|
    ensures r[..3] == "```" && r[3..3 + |info|] == info && r[3 + |info|] == '\n'
    ensures r[4 + |info|..|r| - 3] == Flatten(lines)
    ensures r[|r| - 3..] == "```"
  {
    "```" + info + "\n" + Flatten(lines) + "```"
  }

  /** Writes a code block's fence lines and its body line by line. */
  method WriteFence(w: Buffer, info: string, lines: seq<string>)
    modifies w
    ensures w.data == old(w.data) + Fence(info, lines)
  {
    ghost var start := w.data;
    w.Write("```");
    w.Write(info);
    w.Write("\n");
    ghost var head := w.data;
    var i := 0;
    while i < |lines|
      invariant 0 <= i <= |lines|
      invariant w.data == head + Flatten(lines[..i])
    {
      w.Write(lines[i]);
      FlattenSnoc(lines, i);
      ConcatAssoc(head, Flatten(lines[..i]), lines[i]);
      i := i + 1;
    }
    assert lines[..|lines|] == lines;
    w.Write("```");
    assert head == start + ("```" + info + "\n");
    assert w.data == ((start + ("```" + info + "\n")) + Flatten(lines)) + "```";
  }

  /** `k` dashes. */
  function Dashes(k: nat): (r: string)
    ensures |r| == k && forall i :: 0 <= i < k ==> r[i] == '-'
  {
    seq(k, _ => '-')
  }

  /** Writes `k` dashes one at a time. */
  method WriteDashes(w: Buffer, k: nat)
    modifies w
    ensures w.data == old(w.data) + Dashes(k)
  {
    var i := 0;
    while i < k
      invariant 0 <= i <= k
      invariant w.data == old(w.data) + Dashes(i)
    {
      w.Write("-");
      assert Dashes(i + 1) == Dashes(i) + "-";
      i := i + 1;
    }
  }
}
