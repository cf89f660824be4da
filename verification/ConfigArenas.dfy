/**
 From the text of a configuration to the slot table: numbers are read as signed
 64-bit decimals, sizes are multiplied in 64-bit words, and what passes the
 checks is carved.
 */
module ConfigArenas {
  import opened Bits
  import CanonicalKey
  import opened Options
  import opened ConfigTree
  import opened ConfigRoundTrip
  import ConfigParser
  import opened SlotPlan

  const MIB: nat := 0x10_0000
  const GIB: nat := 0x4000_0000
  const DEFAULT_GRANULE: nat := 0x100_0000

  // ------------------------------------------------------------------- numbers

  /** White space that the number reader skips. */
  function SkipSpace(s: string): string {
    if s != [] && (s[0] == ' ' || '\U{9}' <= s[0] <= '\U{D}') then SkipSpace(s[1..]) else s
  }

  /** A decimal with an optional sign, all of the text, at least 0 and below 2^63. */
  function ReadNumber(s: string): Option<U64> {
    var t := SkipSpace(s);
    var minus := t != [] && t[0] == '-';
    var digits := if t != [] && (t[0] == '-' || t[0] == '+') then t[1..] else t;
    if digits == [] || exists i | 0 <= i < |digits| :: !CanonicalKey.IsDigit(digits[i]) then None
    else
      var v := CanonicalKey.Value(digits);
      if v >= 0x8000_0000_0000_0000 || (minus && v > 0) then None else Some(v)
  }

  /** A number that was written in decimal is read back exactly below 2^63, and refused from there on. */
  lemma NumberBack(v: nat)
    ensures ReadNumber(CanonicalKey.Decimal(v)) == if v < 0x8000_0000_0000_0000 then Some(v) else None
  {
    var s := CanonicalKey.Decimal(v);
    CanonicalKey.ValueOfDecimal(v);
    assert CanonicalKey.IsDigit(s[0]);
    assert SkipSpace(s) == s;
  }

  function ToU64(n: Node): Option<U64> {
    if n.Scalar? then ReadNumber(n.s) else None
  }

  /** A field of a mapping: absent ones are `default`. */
  function Field(m: map<string, Node>, key: string, default: U64): Option<U64> {
    if key in m then ToU64(m[key]) else Some(default)
  }

  /** A size in the given unit, multiplied in a 64-bit word. */
  function Sized(n: Option<U64>, unit: nat): Option<U64> {
    match n
    case Some(v) => Some(v * unit % W64)
    case None => None
  }

  /** The product is exact precisely below 2^34 gibibytes. */
  lemma SizedExactIff(v: U64)
    ensures v * GIB % W64 == v * GIB <==> v < 0x4_0000_0000
  {
    if v < 0x4_0000_0000 {
      ModUnique(v * GIB, W64, 0, v * GIB);
    }
  }

  // -------------------------------------------------------------------- arenas

  function LoadWindow(n: Node): Option<GpuWindow> {
    if !n.Map? then None
    else
      match (Field(n.m, "gpu", 0), Sized(Field(n.m, "size_gb", 0), GIB))
      case (Some(gpu), Some(bytes)) => Some(GpuWindow(gpu % W32, bytes))
      case _ => None
  }

  function LoadWindows(ns: seq<Node>): Option<seq<GpuWindow>> {
    if ns == [] then Some([])
    else
      match (LoadWindows(ns[..|ns| - 1]), LoadWindow(ns[|ns| - 1]))
      case (Some(ws), Some(w)) => Some(ws + [w])
      case _ => None
  }

  function MakeArena(m: map<string, Node>, windows: Option<seq<GpuWindow>>): Option<Arena> {
    match (Field(m, "numa_node", 0), Sized(Field(m, "size_gb", 0), GIB), Sized(Field(m, "overflow_gb", 0), GIB),
      windows)
    case (Some(numa), Some(size), Some(overflow), Some(ws)) => Some(Arena(numa % W32, size, ws, overflow))
    case _ => None
  }

  function LoadArena(n: Node): Option<Arena> {
    if !n.Map? then None
    else if "gpu_windows" !in n.m then MakeArena(n.m, Some([]))
    else if !n.m["gpu_windows"].Seq? then None
    else MakeArena(n.m, LoadWindows(n.m["gpu_windows"].items))
  }

  function LoadArenas(ns: seq<Node>): Option<seq<Arena>> {
    if ns == [] then Some([])
    else
      match (LoadArenas(ns[..|ns| - 1]), LoadArena(ns[|ns| - 1]))
      case (Some(arenas), Some(a)) => Some(arenas + [a])
      case _ => None
  }

  datatype Layout = Layout(gran: U64, arenas: seq<Arena>)

  function MakeLayout(m: map<string, Node>, arenas: Option<seq<Arena>>): Option<Layout> {
    var key := "allocation_granularity_mb";
    if "registration_policy" in m && !m["registration_policy"].Scalar? then None
    else if "registration_chunk_mb" in m && ToU64(m["registration_chunk_mb"]).None? then None
    else match (if key in m then Sized(ToU64(m[key]), MIB) else Some(DEFAULT_GRANULE), arenas)
    case (Some(g), Some(s)) => Some(Layout(g, s))
    case _ => None
  }

  /** Granularity and arenas of a configuration. */
  function LoadLayout(root: Node): Option<Layout> {
    if !root.Map? then None
    else if "arenas" !in root.m || !root.m["arenas"].Map? then Some(Layout(DEFAULT_GRANULE, []))
    else
      var m := root.m["arenas"].m;
      if "per_numa" !in m then MakeLayout(m, Some([]))
      else if !m["per_numa"].Seq? then None
      else MakeLayout(m, LoadArenas(m["per_numa"].items))
  }

  /** One item at a time, in order, stopping at the first bad one. */
  method ReadWindows(ns: seq<Node>) returns (ws: Option<seq<GpuWindow>>)
    ensures ws == LoadWindows(ns)
  {
    var acc: seq<GpuWindow> := [];
    for i := 0 to |ns|
      invariant LoadWindows(ns[..i]) == Some(acc)
    {
      var w := LoadWindow(ns[i]);
      assert ns[..i + 1][..i] == ns[..i];
      if w.None? {
        BadWindow(ns, i + 1);
        return None;
      }
      acc := acc + [w.value];
    }
    assert ns[..|ns|] == ns;
    ws := Some(acc);
  }

  lemma {:induction false} BadWindow(ns: seq<Node>, k: nat)
    requires k <= |ns| && LoadWindows(ns[..k]).None?
    ensures LoadWindows(ns).None?
    decreases |ns| - k
  {
    if k == |ns| {
      assert ns[..k] == ns;
    } else {
      assert ns[..k + 1][..k] == ns[..k];
      BadWindow(ns, k + 1);
    }
  }

  method ReadArena(n: Node) returns (a: Option<Arena>)
    ensures a == LoadArena(n)
  {
    if !n.Map? { return None; }
    if "gpu_windows" !in n.m { return MakeArena(n.m, Some([])); }
    if !n.m["gpu_windows"].Seq? { return None; }
    var ws := ReadWindows(n.m["gpu_windows"].items);
    a := MakeArena(n.m, ws);
  }

  method ReadArenas(ns: seq<Node>) returns (arenas: Option<seq<Arena>>)
    ensures arenas == LoadArenas(ns)
  {
    var acc: seq<Arena> := [];
    for i := 0 to |ns|
      invariant LoadArenas(ns[..i]) == Some(acc)
    {
      var a := ReadArena(ns[i]);
      assert ns[..i + 1][..i] == ns[..i];
      if a.None? {
        BadArena(ns, i + 1);
        return None;
      }
      acc := acc + [a.value];
    }
    assert ns[..|ns|] == ns;
    arenas := Some(acc);
  }

  lemma {:induction false} BadArena(ns: seq<Node>, k: nat)
    requires k <= |ns| && LoadArenas(ns[..k]).None?
    ensures LoadArenas(ns).None?
    decreases |ns| - k
  {
    if k == |ns| {
      assert ns[..k] == ns;
    } else {
      assert ns[..k + 1][..k] == ns[..k];
      BadArena(ns, k + 1);
    }
  }

  method ReadLayout(root: Node) returns (layout: Option<Layout>)
    ensures layout == LoadLayout(root)
  {
    if !root.Map? { return None; }
    if "arenas" !in root.m || !root.m["arenas"].Map? { return Some(Layout(DEFAULT_GRANULE, [])); }
    var m := root.m["arenas"].m;
    if "per_numa" !in m { return MakeLayout(m, Some([])); }
    if !m["per_numa"].Seq? { return None; }
    var arenas := ReadArenas(m["per_numa"].items);
    layout := MakeLayout(m, arenas);
  }

  // --------------------------------------------------------------------- start

  /** What becomes of a configuration text: refused, too many slots for the table, or a filled table. */
  datatype Start = Refused | Overrun(layout: Layout) | Planned(layout: Layout, slots: seq<Slot>, windows: seq<Window>)

  function LayoutOf(content: string): Option<Layout> {
    match Load(content)
    case BadFile => None
    case Tree(root) => LoadLayout(root)
  }

  /** Read, check, count and carve. Where the daemon would write past the table, the outcome is `Overrun`. */
  method StartUp(content: string) returns (r: Start)
    ensures r.Refused? <==>
      LayoutOf(content).None? || !Accepted(LayoutOf(content).value.arenas, LayoutOf(content).value.gran)
    ensures !r.Refused? ==> LayoutOf(content) == Some(r.layout) && r.layout.gran > 0
    ensures r.Overrun? ==> Carved(r.layout.arenas, r.layout.gran) > NumSlots(r.layout.arenas, r.layout.gran)
    ensures r.Planned? ==>
      && Carved(r.layout.arenas, r.layout.gran) <= NumSlots(r.layout.arenas, r.layout.gran)
      && r.slots == Plan(r.layout.arenas, r.layout.gran) && r.windows == Windows(r.layout.arenas, r.layout.gran)
  {
    var tree := ConfigParser.LoadFile(content);
    if tree.BadFile? { return Refused; }
    var layout := ReadLayout(tree.root);
    if layout.None? { return Refused; }
    var arenas, gran := layout.value.arenas, layout.value.gran;
    var ok := Validate(arenas, gran);
    if !ok { return Refused; }
    var n := CountSlots(arenas, gran);
    if Carved(arenas, gran) > n { return Overrun(layout.value); }
    var table := new Slot[n](_ => Slot(0, 0, 0, false));
    var next, ws := BuildSlotPlan(arenas, gran, table);
    r := Planned(layout.value, table[..next], ws);
  }

  /** Every text whose sums do not wrap and whose slots can be numbered starts a daemon with a good plan. */
  lemma StartIsGood(content: string, layout: Layout)
    requires LayoutOf(content) == Some(layout) && Accepted(layout.arenas, layout.gran)
    requires NoWrap(layout.arenas) && Capacity(layout.arenas, layout.gran) < W32
    ensures Carved(layout.arenas, layout.gran) <= NumSlots(layout.arenas, layout.gran)
    ensures var plan := Plan(layout.arenas, layout.gran);
      AllInArena(plan, layout.arenas, layout.gran) && AllApart(plan, layout.gran)
    ensures AllScannable(Windows(layout.arenas, layout.gran), NumSlots(layout.arenas, layout.gran))
  {
    AcceptedIsGood(layout.arenas, layout.gran);
    PlanGoodIff(layout.arenas, layout.gran);
    WindowsScannable(layout.arenas, layout.gran);
    MoreScannable(Windows(layout.arenas, layout.gran), Carved(layout.arenas, layout.gran), [],
                  NumSlots(layout.arenas, layout.gran));
    assert Windows(layout.arenas, layout.gran) + [] == Windows(layout.arenas, layout.gran);
  }
}
