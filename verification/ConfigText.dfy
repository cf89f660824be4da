/** Text helpers of the configuration reader, and the split into indented lines. */
module ConfigText {

  datatype Line = Line(indent: nat, text: string)

  predicate Space(c: char) { c == ' ' || c == '\t' || c == '\r' }

  // ----------------------------------------------------------------- stripping

  function RStrip(s: string): (t: string)
    ensures t <= s && (t != [] ==> !Space(t[|t| - 1]))
  {
    if s != [] && Space(s[|s| - 1]) then RStrip(s[..|s| - 1]) else s
  }

  function LStrip(s: string): (t: string)
    ensures |t| <= |s| && (t != [] ==> !Space(t[0]))
  {
    if s != [] && Space(s[0]) then LStrip(s[1..]) else s
  }

  function Strip(s: string): string { RStrip(LStrip(s)) }

  /** Neither end is white space. */
  predicate Stripped(s: string) { s != [] ==> !Space(s[0]) && !Space(s[|s| - 1]) }

  lemma StrippedStays(s: string)
    requires Stripped(s)
    ensures Strip(s) == s && Strip(" " + s) == s && RStrip(s) == s
  {
    assert (" " + s)[1..] == s;
    assert LStrip(" " + s) == LStrip(s);
  }

  /** The text up to the first '#'. */
  function StripComment(s: string): string {
    if s == [] || s[0] == '#' then [] else [s[0]] + StripComment(s[1..])
  }

  lemma {:induction false} NoComment(s: string)
    requires '#' !in s
    ensures StripComment(s) == s
  {
    if s != [] {
      NoComment(s[1..]);
      assert s == [s[0]] + s[1..];
    }
  }

  /** Position of the first `c`, or the length. */
  function Find(s: string, c: char): (i: nat)
    ensures i <= |s| && (i < |s| ==> s[i] == c) && c !in s[..i]
  {
    if s == [] then 0
    else if s[0] == c then 0
    else
      assert s[..1 + Find(s[1..], c)] == [s[0]] + s[1..][..Find(s[1..], c)];
      1 + Find(s[1..], c)
  }

  lemma {:induction false} FindIn(a: string, c: char, b: string)
    requires c !in a
    ensures Find(a + [c] + b, c) == |a|
  {
    var s := a + [c] + b;
    if a != [] {
      assert s[1..] == a[1..] + [c] + b;
      FindIn(a[1..], c, b);
    }
  }

  /** Number of leading blanks. */
  function Blanks(s: string): (n: nat)
    ensures n <= |s| && (n < |s| ==> s[n] != ' ')
  {
    if s != [] && s[0] == ' ' then 1 + Blanks(s[1..]) else 0
  }

  function Spaces(n: nat): string { seq(n, _ => ' ') }

  lemma {:induction false} BlanksOf(n: nat, s: string)
    requires s != [] ==> s[0] != ' '
    ensures Blanks(Spaces(n) + s) == n
  {
    if n > 0 {
      assert (Spaces(n) + s)[1..] == Spaces(n - 1) + s;
      BlanksOf(n - 1, s);
    }
  }

  // ---------------------------------------------------------------- tokenizing

  datatype Lines = Lines(ls: seq<Line>) | TabError

  /** One raw line: nothing when blank, an error when a tab takes part in the indentation. */
  function LineOf(raw: string): Lines {
    var t := RStrip(StripComment(raw));
    if Strip(t) == [] then Lines([])
    else
      var n := Blanks(t);
      if n < |t| && t[n] == '\t' then TabError else Lines([Line(n, t[n..])])
  }

  function Join(a: Lines, b: Lines): Lines {
    if a.Lines? && b.Lines? then Lines(a.ls + b.ls) else TabError
  }

  /** Lines of `s`, the first of which begins with `line`. */
  function Tokens(s: string, line: string): Lines
    decreases |s|
  {
    if s == [] then LineOf(line)
    else if s[0] == '\n' then Join(LineOf(line), Tokens(s[1..], []))
    else Tokens(s[1..], line + [s[0]])
  }

  /** A line that survives being printed and read. */
  predicate Printable(l: Line) {
    l.text != [] && Stripped(l.text) && '#' !in l.text && '\n' !in l.text
  }

  function PrintLine(l: Line): string { Spaces(l.indent) + l.text }

  function Print(ls: seq<Line>): string {
    if ls == [] then [] else PrintLine(ls[0]) + "\n" + Print(ls[1..])
  }

  lemma {:induction false} TokensRun(a: string, s: string, line: string)
    requires '\n' !in a
    ensures Tokens(a + s, line) == Tokens(s, line + a)
    decreases |a|
  {
    if a == [] {
      assert a + s == s && line + a == line;
    } else {
      assert (a + s)[1..] == a[1..] + s;
      TokensRun(a[1..], s, line + [a[0]]);
      assert line + [a[0]] + a[1..] == line + a;
    }
  }

  lemma EndsClean(s: string)
    requires s != [] && !Space(s[|s| - 1])
    ensures RStrip(s) == s
  {
  }

  lemma {:induction false} StripKeeps(s: string)
    requires s != [] && !Space(s[|s| - 1])
    ensures Strip(s) != []
    decreases |s|
  {
    if Space(s[0]) {
      StripKeeps(s[1..]);
      assert LStrip(s) == LStrip(s[1..]);
    } else {
      EndsClean(s);
    }
  }

  lemma LineBack(l: Line)
    requires Printable(l)
    ensures LineOf(PrintLine(l)) == Lines([l])
  {
    var s := PrintLine(l);
    NoComment(s);
    assert s[|s| - 1] == l.text[|l.text| - 1];
    EndsClean(s);
    StripKeeps(s);
    BlanksOf(l.indent, l.text);
    assert s[l.indent..] == l.text;
  }

  /** Printed lines are read back. */
  lemma {:induction false} TokensBack(ls: seq<Line>)
    requires forall i | 0 <= i < |ls| :: Printable(ls[i])
    ensures Tokens(Print(ls), []) == Lines(ls)
  {
    if ls != [] {
      var p, rest := PrintLine(ls[0]), Print(ls[1..]);
      assert p + "\n" + rest == p + ("\n" + rest);
      TokensRun(p, "\n" + rest, []);
      assert [] + p == p;
      LineBack(ls[0]);
      assert ("\n" + rest)[1..] == rest;
      TokensBack(ls[1..]);
      assert [ls[0]] + ls[1..] == ls;
    }
  }

  // ------------------------------------------------------------------- methods

  /** Cut white space off the end. */
  method CutEnd(s: string) returns (t: string)
    ensures t == RStrip(s)
  {
    var e := |s|;
    assert s[..e] == s;
    while e > 0 && Space(s[e - 1])
      invariant 0 <= e <= |s| && RStrip(s[..e]) == RStrip(s)
    {
      assert s[..e][..e - 1] == s[..e - 1];
      e := e - 1;
    }
    t := s[..e];
  }

  /** Cut white space off both ends. */
  method CutBoth(s: string) returns (t: string)
    ensures t == Strip(s)
  {
    var b := 0;
    while b < |s| && Space(s[b])
      invariant b <= |s| && LStrip(s[b..]) == LStrip(s)
    {
      assert s[b..][1..] == s[b + 1..];
      b := b + 1;
    }
    t := CutEnd(s[b..]);
  }

  method CountBlanks(s: string) returns (n: nat)
    ensures n == Blanks(s)
  {
    n := 0;
    while n < |s| && s[n] == ' '
      invariant n <= |s| && n + Blanks(s[n..]) == Blanks(s)
    {
      assert s[n..][1..] == s[n + 1..];
      n := n + 1;
    }
  }

  method ReadLine(raw: string) returns (l: Lines)
    ensures l == LineOf(raw)
  {
    var trimmed := CutEnd(StripComment(raw));
    var only := CutBoth(trimmed);
    if only == [] { return Lines([]); }
    var n := CountBlanks(trimmed);
    l := if n < |trimmed| && trimmed[n] == '\t' then TabError else Lines([Line(n, trimmed[n..])]);
  }

  /** The file as indented lines. */
  method Tokenize(content: string) returns (out: Lines)
    ensures out == Tokens(content, [])
  {
    out := Lines([]);
    var line: string := [];
    var i := 0;
    assert content[0..] == content;
    JoinNone(Tokens(content, []));
    while i < |content| && out.Lines?
      invariant i <= |content|
      invariant Join(out, Tokens(content[i..], line)) == Tokens(content, [])
    {
      assert content[i..][1..] == content[i + 1..];
      if content[i] == '\n' {
        var l := ReadLine(line);
        JoinAssoc(out, l, Tokens(content[i + 1..], []));
        out := Join(out, l);
        line := [];
      } else {
        line := line + [content[i]];
      }
      i := i + 1;
    }
    if out.Lines? {
      var l := ReadLine(line);
      out := Join(out, l);
    }
  }

  lemma JoinNone(b: Lines)
    ensures Join(Lines([]), b) == b
  {
    if b.Lines? {
      assert [] + b.ls == b.ls;
    }
  }

  lemma JoinAssoc(a: Lines, b: Lines, c: Lines)
    ensures Join(a, Join(b, c)) == Join(Join(a, b), c)
  {
    if a.Lines? && b.Lines? && c.Lines? {
      assert a.ls + (b.ls + c.ls) == a.ls + b.ls + c.ls;
    }
  }
}
