/**
 The parser as it runs: an index that moves over an array of lines, and list
 items that are opened by rewriting their line in place.
 */
module ConfigParser {
  import opened ConfigText
  import opened ConfigTree
  import opened ConfigRoundTrip

  datatype Outcome = Got(node: Node) | Error

  /** Outcome and new index `j` agree with the specification on the lines from the old index on. */
  ghost predicate Agrees(p: Parsed<Node>, out: Outcome, lines: seq<Line>, j: nat) {
    if p.Ok? then out == Got(p.v) && j <= |lines| && lines[j..] == p.rest else out == Error
  }

  method FindChar(s: string, c: char) returns (i: nat)
    ensures i == Find(s, c)
  {
    i := 0;
    while i < |s| && s[i] != c
      invariant i <= |s| && i + Find(s[i..], c) == Find(s, c)
    {
      assert s[i..][1..] == s[i + 1..];
      i := i + 1;
    }
  }

  method ParseBlockAt(lines: array<Line>, i: nat, indent: nat) returns (out: Outcome, j: nat)
    requires i <= lines.Length
    modifies lines
    ensures Agrees(ParseBlock(old(lines[i..]), indent), out, lines[..], j)
    ensures i <= j <= lines.Length && lines[..i] == old(lines[..i])
    decreases lines.Length - i, if i < lines.Length then |lines[i].text| else 0, 3
  {
    if i < lines.Length && lines[i].indent > indent {
      out, j := ParseNodeAt(lines, i, lines[i].indent);
    } else {
      out, j := Got(Empty), i;
    }
  }

  /** On success the index has moved on. */
  method ParseNodeAt(lines: array<Line>, i: nat, indent: nat) returns (out: Outcome, j: nat)
    requires i < lines.Length && lines[i].indent == indent
    modifies lines
    ensures Agrees(ParseNode(old(lines[i..]), indent), out, lines[..], j)
    ensures i <= j <= lines.Length && (out.Got? ==> i < j) && lines[..i] == old(lines[..i])
    decreases lines.Length - i, |lines[i].text|, 2
  {
    var t := lines[i].text;
    if Dash(t) {
      out, j := ParseSeqAt(lines, i, indent);
    } else if ':' !in t {
      var s := CutBoth(t);
      out, j := Got(Scalar(s)), i + 1;
    } else {
      out, j := ParseMapAt(lines, i, indent);
    }
  }

  /** Key and value of a line, or nothing when it has no colon. */
  method SplitLine(t: string) returns (found: bool, key: string, val: string)
    ensures found <==> Find(t, ':') < |t|
    ensures found ==> key == KeyOf(t) && val == ValueOf(t)
  {
    var colon := FindChar(t, ':');
    found, key, val := colon < |t|, [], [];
    if found {
      key := CutBoth(t[..colon]);
      val := CutBoth(t[colon + 1..]);
    }
  }

  datatype EntryOutcome = GotEntry(e: Pair) | NoEntry

  /** One entry of a map. */
  method ParseEntryAt(lines: array<Line>, i: nat, indent: nat) returns (out: EntryOutcome, j: nat)
    requires i < lines.Length && InMap(lines[i..], indent)
    modifies lines
    ensures var p := ParseEntry(old(lines[i..]), indent);
      if p.Ok? then out == GotEntry(p.v) && j <= lines.Length && lines[j..] == p.rest else out == NoEntry
    ensures i < j <= lines.Length && lines[..i] == old(lines[..i])
    decreases lines.Length - i, |lines[i].text|, 0
  {
    assert lines[i..][0] == lines[i] && lines[i..][1..] == lines[i + 1..];
    var found, key, val := SplitLine(lines[i].text);
    if !found { return NoEntry, i + 1; }
    if val != [] { return GotEntry(Pair(key, Scalar(val))), i + 1; }
    ghost var before := lines[..];
    var child;
    child, j := ParseBlockAt(lines, i + 1, indent);
    assert lines[..i] == lines[..i + 1][..i] && before[..i] == before[..i + 1][..i];
    out := if child.Got? then GotEntry(Pair(key, child.node)) else NoEntry;
  }

  method ParseMapAt(lines: array<Line>, i: nat, indent: nat) returns (out: Outcome, j: nat)
    requires i < lines.Length && InMap(lines[i..], indent)
    modifies lines
    ensures Agrees(ParseMap(old(lines[i..]), indent, map[]), out, lines[..], j)
    ensures i <= j <= lines.Length && (out.Got? ==> i < j) && lines[..i] == old(lines[..i])
    decreases lines.Length - i, |lines[i].text|, 1
  {
    ghost var spec := ParseMap(lines[i..], indent, map[]);
    var acc: map<string, Node> := map[];
    j := i;
    while j < lines.Length && lines[j].indent == indent && !Dash(lines[j].text)
      invariant i <= j <= lines.Length && lines[..i] == old(lines[..i])
      invariant j == i ==> InMap(lines[j..], indent) && lines[i] == old(lines[i])
      invariant ParseMap(lines[j..], indent, acc) == spec
      decreases lines.Length - j
    {
      var entry;
      entry, j := ParseEntryAt(lines, j, indent);
      if entry.NoEntry? { return Error, j; }
      acc := acc[entry.e.key := entry.e.value];
    }
    out := Got(Map(acc));
  }

  method ParseSeqAt(lines: array<Line>, i: nat, indent: nat) returns (out: Outcome, j: nat)
    requires i < lines.Length && InSeq(lines[i..], indent)
    modifies lines
    ensures Agrees(ParseSeq(old(lines[i..]), indent, []), out, lines[..], j)
    ensures i <= j <= lines.Length && (out.Got? ==> i < j) && lines[..i] == old(lines[..i])
    decreases lines.Length - i, |lines[i].text|, 1
  {
    ghost var spec := ParseSeq(lines[i..], indent, []);
    var acc: seq<Node> := [];
    j := i;
    while j < lines.Length && lines[j].indent == indent && Dash(lines[j].text)
      invariant i <= j <= lines.Length && lines[..i] == old(lines[..i])
      invariant j == i ==> InSeq(lines[j..], indent) && lines[i] == old(lines[i])
      invariant ParseSeq(lines[j..], indent, acc) == spec
      decreases lines.Length - j
    {
      var child;
      child, j := ParseItemAt(lines, j, indent);
      if child.Error? { return Error, j; }
      acc := acc + [child.node];
    }
    out := Got(Seq(acc));
  }

  /** One item: a block below a bare dash, or the line itself rewritten to its content and parsed again. */
  method ParseItemAt(lines: array<Line>, i: nat, indent: nat) returns (out: Outcome, j: nat)
    requires i < lines.Length && InSeq(lines[i..], indent)
    modifies lines
    ensures Agrees(ParseItem(old(lines[i..]), indent), out, lines[..], j)
    ensures i <= j <= lines.Length && (out.Got? ==> i < j) && lines[..i] == old(lines[..i])
    decreases lines.Length - i, |lines[i].text|, 0
  {
    var t := lines[i].text;
    assert lines[i..][0] == lines[i] && lines[i..][1..] == lines[i + 1..];
    var c := CountBlanks(t[1..]);
    c := c + 1;
    if c == |t| {
      out, j := ParseBlockAt(lines, i + 1, indent);
    } else {
      ghost var rewritten := Opened(lines[i..], indent);
      lines[i] := Line(indent + c, t[c..]);
      assert lines[i..] == rewritten;
      out, j := ParseNodeAt(lines, i, indent + c);
    }
  }

  /** The whole file. */
  method LoadFile(content: string) returns (out: Loaded)
    ensures out == Load(content)
  {
    var toks := Tokenize(content);
    if toks.TabError? || toks.ls == [] { return BadFile; }
    var lines := new Line[|toks.ls|](k requires 0 <= k < |toks.ls| => toks.ls[k]);
    assert lines[..] == toks.ls && lines[0..] == toks.ls;
    var root, j := ParseNodeAt(lines, 0, lines[0].indent);
    if root.Error? { return BadFile; }
    out := if j != lines.Length || !root.node.Map? then BadFile else Tree(root.node);
  }
}
