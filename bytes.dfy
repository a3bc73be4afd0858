/** The pieces of Go's `bytes` package the renderers rely on: the growable
    `Buffer` they write into, `TrimSpace`, and `SplitAfter` on '\n'.
    Text is a sequence of characters (already decoded from UTF-8). */
module Bytes {

  /** Go's unicode.IsSpace. */
  predicate IsSpace(c: char)
  {
    c == '\t' || c == '\n' || c == '\U{0B}' || c == '\U{0C}' || c == '\r' || c == ' '
    || c == '\U{85}' || c == '\U{A0}' || c == '\U{1680}'
    || ('\U{2000}' <= c <= '\U{200A}')
    || c == '\U{2028}' || c == '\U{2029}' || c == '\U{202F}' || c == '\U{205F}' || c == '\U{3000}'
  }

  predicate AllSpace(s: string)
  {
    forall k :: 0 <= k < |s| ==> IsSpace(s[k])
  }

  lemma AllSpaceCons(c: char, t: string)
    requires IsSpace(c) && AllSpace(t)
    ensures AllSpace([c] + t)
  {
    forall k | 0 <= k < |[c] + t|
      ensures IsSpace(([c] + t)[k])
    {
      if k > 0 {
        assert ([c] + t)[k] == t[k - 1];
      }
    }
  }

  /** Drops leading white space. */
  function TrimLeft(s: string): string
    decreases |s|
  {
    if |s| > 0 && IsSpace(s[0]) then TrimLeft(s[1..]) else s
  }

  /** TrimLeft keeps a suffix, drops only white space, and what it keeps
      does not start with white space. */
  lemma {:induction false} TrimLeftShape(s: string)
    ensures var r := TrimLeft(s);
            |r| <= |s| && r == s[|s| - |r|..] && AllSpace(s[..|s| - |r|])
            && (r == [] || !IsSpace(r[0]))
    decreases |s|
  {
    if |s| > 0 && IsSpace(s[0]) {
      var t := s[1..];
      var r := TrimLeft(t);
      TrimLeftShape(t);
      assert TrimLeft(s) == r;
      var d := |s| - |r|;
      assert s[d..] == t[|t| - |r|..];
      assert s[..d] == [s[0]] + t[..|t| - |r|];
      AllSpaceCons(s[0], t[..|t| - |r|]);
    } else {
      assert TrimLeft(s) == s;
      assert s[..0] == [];
    }
  }

  /** Drops trailing white space. */
  function TrimRight(s: string): string
    decreases |s|
  {
    if |s| > 0 && IsSpace(s[|s| - 1]) then TrimRight(s[..|s| - 1]) else s
  }

  /** TrimRight keeps a prefix, drops only white space, and what it keeps
      does not end with white space. */
  lemma {:induction false} TrimRightShape(s: string)
    ensures var r := TrimRight(s);
            |r| <= |s| && r == s[..|r|] && AllSpace(s[|r|..])
            && (r == [] || !IsSpace(r[|r| - 1]))
    decreases |s|
  {
    if |s| > 0 && IsSpace(s[|s| - 1]) {
      var t := s[..|s| - 1];
      var r := TrimRight(t);
      TrimRightShape(t);
      assert TrimRight(s) == r;
      assert s[..|r|] == t[..|r|];
      assert AllSpace(s[|r|..]) by {
        forall k | 0 <= k < |s| - |r|
          ensures IsSpace(s[|r|..][k])
        {
          if k < |t| - |r| {
            assert s[|r|..][k] == t[|r|..][k];
          }
        }
      }
    } else {
      assert TrimRight(s) == s;
      assert s[|s|..] == [];
    }
  }

  /** Go's bytes.TrimSpace: `s` with white space dropped from both ends. */
  function TrimSpace(s: string): string
  {
    TrimRight(TrimLeft(s))
  }

  /** What TrimSpace keeps neither starts nor ends with white space. */
  lemma TrimSpaceEnds(s: string)
    ensures var r := TrimSpace(s);
            |r| <= |s| && (r == [] || (!IsSpace(r[0]) && !IsSpace(r[|r| - 1])))
  {
    var l := TrimLeft(s);
    TrimLeftShape(s);
    TrimRightShape(l);
    var r := TrimRight(l);
    if r != [] {
      assert r[0] == l[0];
    }
  }

  /** What TrimSpace keeps is a slice of its input, and all it drops is
      white space. */
  lemma TrimSpaceSlice(s: string)
    ensures var r := TrimSpace(s);
            exists i :: 0 <= i <= |s| - |r| && r == s[i..i + |r|]
                        && AllSpace(s[..i]) && AllSpace(s[i + |r|..])
  {
    var l := TrimLeft(s);
    var r := TrimRight(l);
    TrimLeftShape(s);
    TrimRightShape(l);
    var i := |s| - |l|;
    assert r == s[i..i + |r|];
    assert s[i + |r|..] == l[|r|..];
    assert 0 <= i <= |s| - |r| && r == s[i..i + |r|] && AllSpace(s[..i]) && AllSpace(s[i + |r|..]);
  }

  /** Trimming twice is trimming once. */
  lemma TrimSpaceIdempotent(s: string)
    ensures TrimSpace(TrimSpace(s)) == TrimSpace(s)
  {
    var t := TrimSpace(s);
    TrimSpaceEnds(s);
    assert TrimLeft(t) == t;
    assert TrimRight(t) == t;
  }

  // ---------------------------------------------------------------------
  // Lines
  // ---------------------------------------------------------------------

  predicate NoNewline(s: string)
  {
    forall k :: 0 <= k < |s| ==> s[k] != '\n'
  }

  /** A complete line: ends with its only '\n'. */
  predicate IsLine(s: string)
  {
    |s| > 0 && s[|s| - 1] == '\n' && NoNewline(s[..|s| - 1])
  }

  /** The shape bytes.SplitAfter(s, "\n") always returns: one or more
      pieces, every piece but the last a complete line, the last without a
      '\n' (possibly empty). */
  predicate IsLines(ls: seq<string>)
  {
    |ls| >= 1
    && (forall i :: 0 <= i < |ls| - 1 ==> IsLine(ls[i]))
    && NoNewline(ls[|ls| - 1])
  }

  /** The pieces joined end to end. */
  function Flatten(ls: seq<string>): string
  {
    if ls == [] then "" else ls[0] + Flatten(ls[1..])
  }

  lemma {:induction false} FlattenAppend(a: seq<string>, b: seq<string>)
    ensures Flatten(a + b) == Flatten(a) + Flatten(b)
  {
    if a == [] {
      assert a + b == b;
    } else {
      assert (a + b)[0] == a[0];
      assert (a + b)[1..] == a[1..] + b;
      FlattenAppend(a[1..], b);
    }
  }

  /** Concatenation is associative. */
  lemma ConcatAssoc(a: string, b: string, c: string)
    ensures (a + b) + c == a + (b + c)
  {
  }

  /** Flatten of a prefix grows by one piece at a time. */
  lemma FlattenSnoc(ls: seq<string>, i: nat)
    requires i < |ls|
    ensures Flatten(ls[..i + 1]) == Flatten(ls[..i]) + ls[i]
  {
    assert ls[..i + 1] == ls[..i] + [ls[i]];
    FlattenAppend(ls[..i], [ls[i]]);
    assert Flatten([ls[i]]) == ls[i] + Flatten([]);
  }

  /** Index of the first '\n' in `s`, or -1. */
  function IndexNewline(s: string): (k: int)
    ensures -1 <= k < |s|
    ensures k == -1 ==> NoNewline(s)
    ensures k >= 0 ==> s[k] == '\n' && NoNewline(s[..k])
    decreases |s|
  {
    if |s| == 0 then -1
    else if s[0] == '\n' then 0
    else
      var k := IndexNewline(s[1..]);
      if k == -1 then -1
      else
        assert s[..k + 1] == [s[0]] + s[1..][..k];
        k + 1
  }

  /** Go's bytes.SplitAfter(s, "\n"): `s` cut after every '\n'. */
  function SplitAfter(s: string): (ls: seq<string>)
    ensures |ls| >= 1
    decreases |s|
  {
    var k := IndexNewline(s);
    if k < 0 then [s] else [s[..k + 1]] + SplitAfter(s[k + 1..])
  }

  /** The pieces SplitAfter returns have the shape of lines, and joined
      again they give back the input. */
  lemma {:induction false} SplitAfterShape(s: string)
    ensures IsLines(SplitAfter(s))
    ensures Flatten(SplitAfter(s)) == s
    decreases |s|
  {
    var ls := SplitAfter(s);
    var k := IndexNewline(s);
    if k < 0 {
      assert Flatten([s]) == s + Flatten([]);
    } else {
      var line := s[..k + 1];
      var rest := SplitAfter(s[k + 1..]);
      SplitAfterShape(s[k + 1..]);
      assert ls == [line] + rest;
      assert line[..|line| - 1] == s[..k];
      assert IsLine(line);
      IsLinesCons(line, rest);
      assert ls[1..] == rest;
      assert Flatten(ls) == line + Flatten(rest);
      assert s == line + s[k + 1..];
    }
  }

  /** A complete line in front of well-shaped pieces keeps the shape. */
  lemma IsLinesCons(l: string, rest: seq<string>)
    requires IsLine(l) && IsLines(rest)
    ensures IsLines([l] + rest)
  {
    var ls := [l] + rest;
    forall i | 0 <= i < |ls| - 1
      ensures IsLine(ls[i])
    {
      if i > 0 {
        assert ls[i] == rest[i - 1];
      }
    }
    assert ls[|ls| - 1] == rest[|rest| - 1];
  }

  lemma IndexNewlineOfLine(a: string, b: string)
    requires IsLine(a)
    ensures IndexNewline(a + b) == |a| - 1
  {
    var s := a + b;
    var k := IndexNewline(s);
    assert s[|a| - 1] == '\n';
    assert s[..|a| - 1] == a[..|a| - 1];
  }

  /** SplitAfter undoes Flatten on well-shaped lines: the two are inverse. */
  lemma {:induction false} SplitAfterFlatten(ls: seq<string>)
    requires IsLines(ls)
    ensures SplitAfter(Flatten(ls)) == ls
    decreases |ls|
  {
    var s := Flatten(ls);
    SplitAfterShape(s);
    if |ls| == 1 {
      assert s == ls[0] + Flatten([]);
      assert s == ls[0];
      assert NoNewline(s);
      assert IndexNewline(s) == -1;
      assert SplitAfter(s) == [s];
      assert ls == [ls[0]];
    } else {
      var rest := ls[1..];
      assert IsLines(rest) by {
        forall i | 0 <= i < |rest| - 1 ensures IsLine(rest[i]) { assert rest[i] == ls[i + 1]; }
      }
      IndexNewlineOfLine(ls[0], Flatten(rest));
      var k := |ls[0]| - 1;
      assert s[..k + 1] == ls[0];
      assert s[k + 1..] == Flatten(rest);
      SplitAfterFlatten(rest);
      assert ls == [ls[0]] + rest;
    }
  }

  /** Pieces joined with a '\n' between neighbours. */
  function Join(ls: seq<string>): string
  {
    if |ls| == 0 then ""
    else if |ls| == 1 then ls[0]
    else Join(ls[..|ls| - 1]) + "\n" + ls[|ls| - 1]
  }

  /** Joining one more line adds a newline and the line. */
  lemma JoinSnoc(ls: seq<string>, l: string)
    ensures Join(ls + [l]) == if ls == [] then l else Join(ls) + "\n" + l
  {
    assert (ls + [l])[..|ls + [l]| - 1] == ls;
  }

  /** Lines written one after another, a newline before each but the
      first and `lead` before the first, are `lead` and their join. */
  lemma JoinLead(lead: string, ls: seq<string>, l: string)
    ensures (if ls == [] then "" else lead + Join(ls)) + (if ls == [] then lead else "\n") + l
            == lead + Join(ls + [l])
  {
    JoinSnoc(ls, l);
    if ls != [] {
      ConcatAssoc(lead + Join(ls), "\n", l);
      ConcatAssoc(lead, Join(ls), "\n" + l);
      ConcatAssoc(Join(ls), "\n", l);
    }
  }

  /** Lines written one after another, each followed by a newline, are
      their join and a newline. */
  lemma JoinLines(ls: seq<string>, l: string)
    ensures (if ls == [] then "" else Join(ls) + "\n") + (l + "\n") == Join(ls + [l]) + "\n"
  {
    JoinSnoc(ls, l);
    if ls != [] {
      ConcatAssoc(Join(ls) + "\n", l, "\n");
      ConcatAssoc(Join(ls), "\n", l);
    }
  }

  // ---------------------------------------------------------------------
  // The output buffer
  // ---------------------------------------------------------------------

  /** A writer all output goes to (Go's bytes.Buffer, or the writer handed
      to a render call). Writes never fail in this model. */
  class Buffer {
    var data: string

    constructor ()
      ensures data == []
    {
      data := [];
    }

    method Write(s: string)
      modifies this
      ensures data == old(data) + s
    {
      data := data + s;
    }

    method Reset()
      modifies this
      ensures data == []
    {
      data := [];
    }
  }
}
