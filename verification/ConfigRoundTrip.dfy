/**
 Documents that can be written in the configuration language, how they are
 written, and that the parser gives back what was written.
 */
module ConfigRoundTrip {
  import opened ConfigText
  import opened ConfigTree

  datatype Doc = DEmpty | DScalar(s: string) | DMap(entries: seq<Entry>) | DSeq(items: seq<Doc>)

  datatype Entry = Entry(key: string, value: Doc)

  // ------------------------------------------------------------- what is legal

  predicate Clean(s: string) { Stripped(s) && '#' !in s && '\n' !in s }

  predicate PlainKey(k: string) { Clean(k) && ':' !in k && !DashBlank(k) }

  predicate PlainValue(s: string) { s != [] && Clean(s) }

  /** As an item of a list, a scalar must not look like a key or like another list. */
  predicate PlainItem(s: string) { PlainValue(s) && ':' !in s && !Dash(s) }

  ghost predicate Legal(doc: Doc)
    decreases doc
  {
    match doc
    case DEmpty => false
    case DScalar(s) => PlainItem(s)
    case DMap(es) => es != [] && LegalEntries(es)
    case DSeq(items) => items != [] && LegalItems(items)
  }

  ghost predicate LegalEntries(es: seq<Entry>)
    decreases es
  {
    es != [] ==>
      && PlainKey(es[0].key) && LegalEntries(es[1..])
      && match es[0].value
         case DEmpty => true
         case DScalar(s) => PlainValue(s)
         case _ => Legal(es[0].value)
  }

  ghost predicate LegalItems(items: seq<Doc>)
    decreases items
  {
    items != [] ==> (items[0].DEmpty? || Legal(items[0])) && LegalItems(items[1..])
  }

  // --------------------------------------------------------------- what it means

  ghost function Meaning(doc: Doc): Node
    decreases doc
  {
    match doc
    case DEmpty => Empty
    case DScalar(s) => Scalar(s)
    case DMap(es) => Map(MeaningOfEntries(map[], es))
    case DSeq(items) => Seq(MeaningOfItems(items))
  }

  /** A repeated key takes its last value. */
  ghost function MeaningOfEntries(acc: map<string, Node>, es: seq<Entry>): map<string, Node>
    decreases es
  {
    if es == [] then acc else MeaningOfEntries(acc[es[0].key := Meaning(es[0].value)], es[1..])
  }

  ghost function MeaningOfItems(items: seq<Doc>): seq<Node>
    decreases items
  {
    if items == [] then [] else [Meaning(items[0])] + MeaningOfItems(items[1..])
  }

  // ------------------------------------------------------------ how it is written

  function Render(doc: Doc, d: nat): seq<Line>
    decreases doc
  {
    match doc
    case DEmpty => []
    case DScalar(s) => [Line(d, s)]
    case DMap(es) => RenderEntries(es, d)
    case DSeq(items) => RenderItems(items, d)
  }

  function RenderEntry(e: Entry, d: nat): seq<Line>
    decreases e, 0
  {
    match e.value
    case DEmpty => [Line(d, e.key + ":")]
    case DScalar(s) => [Line(d, e.key + ": " + s)]
    case _ => [Line(d, e.key + ":")] + Render(e.value, d + 2)
  }

  function RenderEntries(es: seq<Entry>, d: nat): seq<Line>
    decreases es
  {
    if es == [] then [] else RenderEntry(es[0], d) + RenderEntries(es[1..], d)
  }

  /** An item shares the line of its dash with the first line of its content. */
  function Dashed(ls: seq<Line>, d: nat): seq<Line> {
    if ls == [] then [Line(d, "-")] else [Line(d, "- " + ls[0].text)] + ls[1..]
  }

  function RenderItems(items: seq<Doc>, d: nat): seq<Line>
    decreases items
  {
    if items == [] then [] else Dashed(Render(items[0], d + 2), d) + RenderItems(items[1..], d)
  }

  // ----------------------------------------------------------------- first lines

  predicate StartsAt(ls: seq<Line>, d: nat) { ls != [] && ls[0].indent == d }

  /** What follows a block at depth `d` is less deep. */
  predicate EndsBlock(rest: seq<Line>, d: nat) { rest != [] ==> rest[0].indent < d }

  lemma EntryHead(e: Entry, d: nat)
    ensures RenderEntry(e, d) != []
    ensures var l := RenderEntry(e, d)[0];
      l.indent == d && l.text == e.key + ":" + if e.value.DScalar? then " " + e.value.s else ""
  {
    if e.value.DScalar? {
      assert e.key + ": " + e.value.s == e.key + ":" + (" " + e.value.s);
    } else {
      assert e.key + ":" + "" == e.key + ":";
    }
  }

  /** A line with a key is no list item, and its key and value are found again. */
  lemma KeyLine(k: string, v: string)
    requires PlainKey(k) && (v != "" ==> PlainValue(v))
    ensures var t := k + ":" + if v != "" then " " + v else "";
      && t != [] && t[0] != ' ' && !Dash(t) && ':' in t && Find(t, ':') < |t| && KeyOf(t) == k && ValueOf(t) == v
  {
    var tail := if v != "" then " " + v else "";
    var t := k + ":" + tail;
    FindIn(k, ':', tail);
    assert t[..|k|] == k && t[|k| + 1..] == tail && t[|k|] == ':';
    StrippedStays(k);
    StrippedStays(v);
    NoDash(k, tail);
  }

  lemma NoDash(k: string, tail: string)
    requires !DashBlank(k)
    ensures !Dash(k + ":" + tail)
  {
    var t := k + ":" + tail;
    assert |k| >= 2 ==> t[0] == k[0] && t[1] == k[1];
    assert t[|k|] == ':';
  }

  lemma NodeHead(doc: Doc, d: nat)
    requires Legal(doc)
    ensures StartsAt(Render(doc, d), d)
    ensures var t := Render(doc, d)[0].text;
      t != [] && t[0] != ' ' && (Dash(t) <==> doc.DSeq?) && (!doc.DSeq? ==> (':' in t <==> doc.DMap?))
  {
    match doc
    case DScalar(s) =>
    case DMap(es) =>
      EntryHead(es[0], d);
      KeyLine(es[0].key, if es[0].value.DScalar? then es[0].value.s else "");
    case DSeq(items) =>
  }

  // ------------------------------------------------------------------- round trip

  lemma {:induction false} NodeBack(doc: Doc, d: nat, rest: seq<Line>)
    requires Legal(doc) && EndsBlock(rest, d)
    ensures StartsAt(Render(doc, d) + rest, d)
    ensures ParseNode(Render(doc, d) + rest, d) == Ok(Meaning(doc), rest)
    decreases doc, 0
  {
    NodeHead(doc, d);
    match doc
    case DScalar(s) =>
      StrippedStays(s);
      assert ([Line(d, s)] + rest)[1..] == rest;
    case DMap(es) => EntriesBack(es, d, map[], rest);
    case DSeq(items) =>
      ItemsBack(items, d, [], rest);
      assert [] + MeaningOfItems(items) == MeaningOfItems(items);
  }

  lemma RestEnds(es: seq<Entry>, d: nat, rest: seq<Line>)
    requires EndsBlock(rest, d)
    ensures !Deeper(RenderEntries(es, d) + rest, d) && EndsBlock(RenderEntries(es, d) + rest, d + 2)
  {
    if es != [] {
      EntryHead(es[0], d);
    }
  }

  /** The value of an entry, when it is not on the key's line. */
  lemma {:induction false} ValueBack(v: Doc, d: nat, rest: seq<Line>)
    requires v.DEmpty? || (!v.DScalar? && Legal(v))
    requires !Deeper(rest, d) && EndsBlock(rest, d + 2)
    ensures ParseBlock(Render(v, d + 2) + rest, d) == Ok(Meaning(v), rest)
    decreases v, 1
  {
    if v.DEmpty? {
      assert [] + rest == rest;
    } else {
      NodeBack(v, d + 2, rest);
    }
  }

  lemma ScalarEntryBack(k: string, v: string, d: nat, rest: seq<Line>)
    requires PlainKey(k) && PlainValue(v)
    ensures var ls := [Line(d, k + ": " + v)] + rest; InMap(ls, d) && ParseEntry(ls, d) == Ok(Pair(k, Scalar(v)), rest)
  {
    var t := k + ":" + (" " + v);
    SpaceAfterColon(k, v);
    KeyLine(k, v);
    assert ([Line(d, t)] + rest)[1..] == rest;
  }

  lemma SpaceAfterColon(k: string, v: string)
    ensures k + ": " + v == k + ":" + (" " + v)
  {
  }

  lemma BlockEntryBack(k: string, block: seq<Line>, child: Node, d: nat, rest: seq<Line>)
    requires PlainKey(k) && ParseBlock(block + rest, d) == Ok(child, rest)
    ensures var ls := [Line(d, k + ":")] + block + rest; InMap(ls, d) && ParseEntry(ls, d) == Ok(Pair(k, child), rest)
  {
    assert k + ":" == k + ":" + "";
    KeyLine(k, "");
    assert ([Line(d, k + ":")] + block + rest)[1..] == block + rest;
  }

  /** One entry at the front of the lines of a map. */
  lemma {:induction false} EntryBack(e: Entry, d: nat, acc: map<string, Node>, rest: seq<Line>)
    requires LegalEntries([e]) && !Deeper(rest, d) && EndsBlock(rest, d + 2)
    ensures ParseMap(RenderEntry(e, d) + rest, d, acc) == ParseMap(rest, d, acc[e.key := Meaning(e.value)])
    decreases e
  {
    if e.value.DScalar? {
      ScalarEntryBack(e.key, e.value.s, d, rest);
    } else {
      ValueBack(e.value, d, rest);
      BlockEntryBack(e.key, Render(e.value, d + 2), Meaning(e.value), d, rest);
      assert e.value.DEmpty? ==> [Line(d, e.key + ":")] + [] == [Line(d, e.key + ":")];
    }
  }

  lemma {:induction false} EntriesBack(es: seq<Entry>, d: nat, acc: map<string, Node>, rest: seq<Line>)
    requires LegalEntries(es) && EndsBlock(rest, d)
    ensures ParseMap(RenderEntries(es, d) + rest, d, acc) == Ok(Map(MeaningOfEntries(acc, es)), rest)
    decreases es
  {
    if es == [] {
      assert [] + rest == rest;
    } else {
      var more := RenderEntries(es[1..], d) + rest;
      LinesAssoc(RenderEntry(es[0], d), RenderEntries(es[1..], d), rest);
      RestEnds(es[1..], d, rest);
      assert [es[0]][1..] == [];
      EntryBack(es[0], d, acc, more);
      EntriesBack(es[1..], d, acc[es[0].key := Meaning(es[0].value)], rest);
    }
  }

  /** Rewriting the line of a dash restores the lines of the item. */
  lemma OpenedIs(ls: seq<Line>, d: nat, rest: seq<Line>)
    requires StartsAt(ls, d + 2) && ls[0].text != [] && ls[0].text[0] != ' '
    ensures InSeq(Dashed(ls, d) + rest, d) && ContentAt((Dashed(ls, d) + rest)[0].text) == 2
    ensures Opened(Dashed(ls, d) + rest, d) == ls + rest
  {
    var t := "- " + ls[0].text;
    assert t[1..] == Spaces(1) + ls[0].text;
    BlanksOf(1, ls[0].text);
    assert t[2..] == ls[0].text;
    assert ls == [ls[0]] + ls[1..];
    assert (Dashed(ls, d) + rest)[1..] == ls[1..] + rest;
  }

  lemma {:induction false} ItemBack(item: Doc, d: nat, rest: seq<Line>)
    requires item.DEmpty? || Legal(item)
    requires !Deeper(rest, d) && EndsBlock(rest, d + 2)
    ensures var ls := Dashed(Render(item, d + 2), d) + rest;
      InSeq(ls, d) && ParseItem(ls, d) == Ok(Meaning(item), rest)
    decreases item, 1
  {
    if item.DEmpty? {
      assert ([Line(d, "-")] + rest)[1..] == rest;
    } else {
      NodeHead(item, d + 2);
      OpenedIs(Render(item, d + 2), d, rest);
      NodeBack(item, d + 2, rest);
    }
  }

  lemma {:induction false} ItemStep(item: Doc, d: nat, acc: seq<Node>, rest: seq<Line>)
    requires item.DEmpty? || Legal(item)
    requires !Deeper(rest, d) && EndsBlock(rest, d + 2)
    ensures ParseSeq(Dashed(Render(item, d + 2), d) + rest, d, acc) == ParseSeq(rest, d, acc + [Meaning(item)])
    decreases item, 2
  {
    ItemBack(item, d, rest);
  }

  lemma LinesAssoc(a: seq<Line>, b: seq<Line>, c: seq<Line>)
    ensures a + b + c == a + (b + c)
  {
  }

  lemma NodesAssoc(a: seq<Node>, n: Node, b: seq<Node>)
    ensures a + [n] + b == a + ([n] + b)
  {
  }

  lemma ItemsEnd(items: seq<Doc>, d: nat, rest: seq<Line>)
    requires EndsBlock(rest, d)
    ensures !Deeper(RenderItems(items, d) + rest, d) && EndsBlock(RenderItems(items, d) + rest, d + 2)
  {
  }

  lemma {:induction false} ItemsBack(items: seq<Doc>, d: nat, acc: seq<Node>, rest: seq<Line>)
    requires LegalItems(items) && EndsBlock(rest, d)
    ensures ParseSeq(RenderItems(items, d) + rest, d, acc) == Ok(Seq(acc + MeaningOfItems(items)), rest)
    decreases items
  {
    if items == [] {
      assert [] + rest == rest && acc + [] == acc;
    } else {
      var more := RenderItems(items[1..], d) + rest;
      LinesAssoc(Dashed(Render(items[0], d + 2), d), RenderItems(items[1..], d), rest);
      ItemsEnd(items[1..], d, rest);
      ItemStep(items[0], d, acc, more);
      ItemsBack(items[1..], d, acc + [Meaning(items[0])], rest);
      NodesAssoc(acc, Meaning(items[0]), MeaningOfItems(items[1..]));
    }
  }

  // ------------------------------------------------------------------ whole files

  ghost predicate AllPrintable(ls: seq<Line>) { forall i | 0 <= i < |ls| :: Printable(ls[i]) }

  lemma JoinPrintable(a: seq<Line>, b: seq<Line>)
    requires AllPrintable(a) && AllPrintable(b)
    ensures AllPrintable(a + b)
  {
  }

  lemma KeyLinePrintable(k: string, v: string, d: nat)
    requires PlainKey(k) && (v != "" ==> PlainValue(v))
    ensures Printable(Line(d, k + ":")) && (v != "" ==> Printable(Line(d, k + ": " + v)))
  {
  }

  lemma {:induction false} EntryPrintable(e: Entry, d: nat)
    requires LegalEntries([e])
    ensures AllPrintable(RenderEntry(e, d))
    decreases e
  {
    KeyLinePrintable(e.key, if e.value.DScalar? then e.value.s else "", d);
    if !e.value.DScalar? && !e.value.DEmpty? {
      NodePrintable(e.value, d + 2);
      JoinPrintable([Line(d, e.key + ":")], Render(e.value, d + 2));
    }
  }

  lemma {:induction false} EntriesPrintable(es: seq<Entry>, d: nat)
    requires LegalEntries(es)
    ensures AllPrintable(RenderEntries(es, d))
    decreases es
  {
    if es != [] {
      assert [es[0]][1..] == [];
      EntryPrintable(es[0], d);
      EntriesPrintable(es[1..], d);
      JoinPrintable(RenderEntry(es[0], d), RenderEntries(es[1..], d));
    }
  }

  lemma DashedPrintable(ls: seq<Line>, d: nat)
    requires AllPrintable(ls)
    ensures AllPrintable(Dashed(ls, d))
  {
    if ls != [] {
      assert Printable(ls[0]);
      assert Printable(Line(d, "- " + ls[0].text));
      JoinPrintable([Line(d, "- " + ls[0].text)], ls[1..]);
    }
  }

  lemma {:induction false} ItemsPrintable(items: seq<Doc>, d: nat)
    requires LegalItems(items)
    ensures AllPrintable(RenderItems(items, d))
    decreases items
  {
    if items != [] {
      if !items[0].DEmpty? {
        NodePrintable(items[0], d + 2);
      }
      DashedPrintable(Render(items[0], d + 2), d);
      ItemsPrintable(items[1..], d);
      JoinPrintable(Dashed(Render(items[0], d + 2), d), RenderItems(items[1..], d));
    }
  }

  lemma {:induction false} NodePrintable(doc: Doc, d: nat)
    requires Legal(doc)
    ensures AllPrintable(Render(doc, d))
    decreases doc
  {
    match doc
    case DScalar(s) =>
    case DMap(es) => EntriesPrintable(es, d);
    case DSeq(items) => ItemsPrintable(items, d);
  }

  datatype Loaded = Tree(root: Node) | BadFile

  /** The reader up to its checks of individual settings: the file must be one mapping and nothing else. */
  function Load(content: string): Loaded {
    match Tokens(content, [])
    case TabError => BadFile
    case Lines(ls) =>
      if ls == [] then BadFile
      else
        match ParseNode(ls, ls[0].indent)
        case Bad => BadFile
        case Ok(root, rest) => if rest != [] || !root.Map? then BadFile else Tree(root)
  }

  /** Every legal mapping, written to a file at any depth, is read back as what it means. */
  lemma FileBack(doc: Doc, d: nat)
    requires Legal(doc) && doc.DMap?
    ensures Load(Print(Render(doc, d))) == Tree(Meaning(doc))
  {
    var ls := Render(doc, d);
    NodePrintable(doc, d);
    TokensBack(ls);
    NodeBack(doc, d, []);
    assert ls + [] == ls;
  }
}
