/**
 The indentation grammar: nodes, the recursive parser over the remaining lines,
 and the law that it leaves the lines after a node as they were.
 */
module ConfigTree {
  import opened ConfigText

  datatype Node = Empty | Scalar(s: string) | Map(m: map<string, Node>) | Seq(items: seq<Node>)

  datatype Parsed<T> = Ok(v: T, rest: seq<Line>) | Bad

  /** A list item. */
  predicate Dash(t: string) { DashBlank(t) || t == "-" }

  predicate DashBlank(t: string) { |t| >= 2 && t[0] == '-' && t[1] == ' ' }

  predicate InMap(ls: seq<Line>, indent: nat) { ls != [] && ls[0].indent == indent && !Dash(ls[0].text) }

  predicate InSeq(ls: seq<Line>, indent: nat) { ls != [] && ls[0].indent == indent && Dash(ls[0].text) }

  function KeyOf(t: string): string
  {
    Strip(t[..Find(t, ':')])
  }

  function ValueOf(t: string): string
    requires Find(t, ':') < |t|
  {
    Strip(t[Find(t, ':') + 1..])
  }

  /** Where the content of an item begins. */
  function ContentAt(t: string): (c: nat)
    requires Dash(t)
    ensures 1 <= c <= |t|
  {
    1 + Blanks(t[1..])
  }

  /** The lines with the first one rewritten to the content of its item. */
  function Opened(ls: seq<Line>, indent: nat): seq<Line>
    requires InSeq(ls, indent)
  {
    var c := ContentAt(ls[0].text);
    [Line(indent + c, ls[0].text[c..])] + ls[1..]
  }

  function TextLen(ls: seq<Line>): nat { if ls == [] then 0 else |ls[0].text| }

  predicate Deeper(ls: seq<Line>, indent: nat) { ls != [] && ls[0].indent > indent }

  /** A block below a key or a bare dash, or nothing. */
  function ParseBlock(ls: seq<Line>, indent: nat): (r: Parsed<Node>)
    ensures r.Ok? ==> |r.rest| <= |ls|
    decreases |ls|, TextLen(ls), 3
  {
    if Deeper(ls, indent) then ParseNode(ls, ls[0].indent) else Ok(Empty, ls)
  }

  function ParseNode(ls: seq<Line>, indent: nat): (r: Parsed<Node>)
    requires ls != [] ==> ls[0].indent == indent
    ensures r.Ok? ==> |r.rest| <= |ls| && (ls != [] ==> |r.rest| < |ls|)
    decreases |ls|, TextLen(ls), 2
  {
    if ls == [] then Ok(Empty, [])
    else if Dash(ls[0].text) then ParseSeq(ls, indent, [])
    else if ':' !in ls[0].text then Ok(Scalar(Strip(ls[0].text)), ls[1..])
    else ParseMap(ls, indent, map[])
  }

  datatype Pair = Pair(key: string, value: Node)

  /** A key with its value, on its line or in a block below it. */
  function ParseEntry(ls: seq<Line>, indent: nat): (r: Parsed<Pair>)
    requires InMap(ls, indent)
    ensures r.Ok? ==> |r.rest| < |ls|
    decreases |ls|, TextLen(ls), 0
  {
    var t := ls[0].text;
    if Find(t, ':') == |t| then Bad
    else if ValueOf(t) != [] then Ok(Pair(KeyOf(t), Scalar(ValueOf(t))), ls[1..])
    else
      match ParseBlock(ls[1..], indent)
      case Bad => Bad
      case Ok(child, rest) => Ok(Pair(KeyOf(t), child), rest)
  }

  function ParseMap(ls: seq<Line>, indent: nat, acc: map<string, Node>): (r: Parsed<Node>)
    ensures r.Ok? ==> |r.rest| <= |ls| && (InMap(ls, indent) ==> |r.rest| < |ls|)
    decreases |ls|, TextLen(ls), 1
  {
    if !InMap(ls, indent) then Ok(Map(acc), ls)
    else
      match ParseEntry(ls, indent)
      case Bad => Bad
      case Ok(e, rest) => ParseMap(rest, indent, acc[e.key := e.value])
  }

  function ParseItem(ls: seq<Line>, indent: nat): (r: Parsed<Node>)
    requires InSeq(ls, indent)
    ensures r.Ok? ==> |r.rest| < |ls|
    decreases |ls|, TextLen(ls), 0
  {
    var c := ContentAt(ls[0].text);
    if c == |ls[0].text| then ParseBlock(ls[1..], indent) else ParseNode(Opened(ls, indent), indent + c)
  }

  function ParseSeq(ls: seq<Line>, indent: nat, acc: seq<Node>): (r: Parsed<Node>)
    ensures r.Ok? ==> |r.rest| <= |ls| && (InSeq(ls, indent) ==> |r.rest| < |ls|)
    decreases |ls|, TextLen(ls), 1
  {
    if !InSeq(ls, indent) then Ok(Seq(acc), ls)
    else
      match ParseItem(ls, indent)
      case Bad => Bad
      case Ok(child, rest) => ParseSeq(rest, indent, acc + [child])
  }

  // ------------------------------------------------------- what is not touched

  /** `rest` is the tail of `ls`. */
  ghost predicate Tail(rest: seq<Line>, ls: seq<Line>) {
    |rest| <= |ls| && rest == ls[|ls| - |rest|..]
  }

  lemma TailOfOpened(rest: seq<Line>, ls: seq<Line>, indent: nat)
    requires InSeq(ls, indent) && Tail(rest, Opened(ls, indent)) && |rest| < |ls|
    ensures Tail(rest, ls)
  {
    var o := Opened(ls, indent);
    assert forall i | 1 <= i < |ls| :: o[i] == ls[i];
  }

  lemma {:induction false} BlockTail(ls: seq<Line>, indent: nat)
    ensures ParseBlock(ls, indent).Ok? ==> Tail(ParseBlock(ls, indent).rest, ls)
    decreases |ls|, TextLen(ls), 3
  {
    if Deeper(ls, indent) {
      NodeTail(ls, ls[0].indent);
    }
  }

  /** The lines after a node are as they were, although the parser rewrites lines inside it. */
  lemma {:induction false} NodeTail(ls: seq<Line>, indent: nat)
    requires ls != [] ==> ls[0].indent == indent
    ensures ParseNode(ls, indent).Ok? ==> Tail(ParseNode(ls, indent).rest, ls)
    decreases |ls|, TextLen(ls), 2
  {
    if ls != [] {
      if Dash(ls[0].text) {
        SeqTail(ls, indent, []);
      } else if ':' in ls[0].text {
        MapTail(ls, indent, map[]);
      }
    }
  }

  lemma {:induction false} EntryTail(ls: seq<Line>, indent: nat)
    requires InMap(ls, indent)
    ensures ParseEntry(ls, indent).Ok? ==> Tail(ParseEntry(ls, indent).rest, ls)
    decreases |ls|, TextLen(ls), 0
  {
    BlockTail(ls[1..], indent);
  }

  lemma {:induction false} MapTail(ls: seq<Line>, indent: nat, acc: map<string, Node>)
    ensures ParseMap(ls, indent, acc).Ok? ==> Tail(ParseMap(ls, indent, acc).rest, ls)
    decreases |ls|, TextLen(ls), 1
  {
    if InMap(ls, indent) {
      EntryTail(ls, indent);
      var e := ParseEntry(ls, indent);
      if e.Ok? {
        MapTail(e.rest, indent, acc[e.v.key := e.v.value]);
      }
    }
  }

  lemma {:induction false} ItemTail(ls: seq<Line>, indent: nat)
    requires InSeq(ls, indent)
    ensures ParseItem(ls, indent).Ok? ==> Tail(ParseItem(ls, indent).rest, ls)
    decreases |ls|, TextLen(ls), 0
  {
    var c := ContentAt(ls[0].text);
    if c == |ls[0].text| {
      BlockTail(ls[1..], indent);
    } else {
      NodeTail(Opened(ls, indent), indent + c);
      if ParseItem(ls, indent).Ok? {
        TailOfOpened(ParseItem(ls, indent).rest, ls, indent);
      }
    }
  }

  lemma {:induction false} SeqTail(ls: seq<Line>, indent: nat, acc: seq<Node>)
    ensures ParseSeq(ls, indent, acc).Ok? ==> Tail(ParseSeq(ls, indent, acc).rest, ls)
    decreases |ls|, TextLen(ls), 1
  {
    if InSeq(ls, indent) {
      ItemTail(ls, indent);
      var item := ParseItem(ls, indent);
      if item.Ok? {
        SeqTail(item.rest, indent, acc + [item.v]);
      }
    }
  }
}
