/**
 The Python client's codec beside the C++ one. Integers are masked rather than
 typed, text is UTF-8 (RFC 3629), and a signed value out of range is an error.
 */
module PyWire {
  import opened Bits
  import opened Options
  import opened WireFormat
  import opened WireLaws
  import opened WireCatalog
  import opened WireMessages

  // --------------------------------------------------------------------- UTF-8

  function EncodeChar(ch: char): (s: seq<Byte>)
    ensures 1 <= |s| <= 4
  {
    var c := ch as int;
    if c < 0x80 then [c]
    else if c < 0x800 then [0xC0 + c / 64, 0x80 + c % 64]
    else if c < 0x1_0000 then [0xE0 + c / 4096, 0x80 + c / 64 % 64, 0x80 + c % 64]
    else [0xF0 + c / 0x4_0000, 0x80 + c / 4096 % 64, 0x80 + c / 64 % 64, 0x80 + c % 64]
  }

  function Utf8(t: string): seq<Byte> {
    if t == [] then [] else EncodeChar(t[0]) + Utf8(t[1..])
  }

  /** The first byte says how many bytes the character has. */
  lemma CharLength(c: char)
    ensures var s := EncodeChar(c);
      |s| == if s[0] < 0xC0 then 1 else if s[0] < 0xE0 then 2 else if s[0] < 0xF0 then 3 else 4
  {
  }

  lemma Digits64(c: nat)
    ensures c == 64 * (c / 64) + c % 64
    ensures c / 4096 == c / 64 / 64 && c / 0x4_0000 == c / 4096 / 64
  {
  }

  lemma CharInjective(c: char, d: char)
    requires EncodeChar(c) == EncodeChar(d)
    ensures c == d
  {
    var a, b := EncodeChar(c), EncodeChar(d);
    CharLength(c);
    CharLength(d);
    Digits64(c as int);
    Digits64(d as int);
    Digits64(c as int / 64);
    Digits64(d as int / 64);
    Digits64(c as int / 4096);
    Digits64(d as int / 4096);
    assert forall i | 0 <= i < |a| :: a[i] == b[i];
  }

  lemma CharPrefixFree(c: char, x: seq<Byte>, d: char, y: seq<Byte>)
    requires EncodeChar(c) + x == EncodeChar(d) + y
    ensures c == d && x == y
  {
    var a, b := EncodeChar(c), EncodeChar(d);
    assert (a + x)[0] == a[0] && (b + y)[0] == b[0];
    CharLength(c);
    CharLength(d);
    assert a == (a + x)[..|a|] && b == (b + y)[..|a|];
    assert x == (a + x)[|a|..] && y == (b + y)[|a|..];
    CharInjective(c, d);
  }

  /** No two texts have the same bytes. */
  lemma {:induction false} Utf8Injective(t: string, u: string)
    requires Utf8(t) == Utf8(u)
    ensures t == u
    decreases |t|
  {
    if t != [] && u != [] {
      CharPrefixFree(t[0], Utf8(t[1..]), u[0], Utf8(u[1..]));
      Utf8Injective(t[1..], u[1..]);
      assert t == [t[0]] + t[1..] && u == [u[0]] + u[1..];
    }
  }

  ghost predicate IsUtf8(s: seq<Byte>) { exists t :: Utf8(t) == s }

  /** Strict decoding: the text whose bytes these are. */
  ghost function TextOf(s: seq<Byte>): (t: string)
    requires IsUtf8(s)
    ensures Utf8(t) == s
  {
    var t :| Utf8(t) == s; t
  }

  lemma TextOfUtf8(t: string)
    ensures IsUtf8(Utf8(t)) && TextOf(Utf8(t)) == t
  {
    Utf8Injective(TextOf(Utf8(t)), t);
  }

  // ------------------------------------------------------------------ decoding

  datatype PVal = PFlag(b: bool) | PNum(n: int) | PText(t: string) | PRows(rows: seq<seq<PVal>>)

  ghost function PyText(s: seq<Byte>): Parse<PVal> {
    match DecodeInt(s, 4)
    case Fail => Fail
    case Done(n, rest) =>
      match Take(rest, n)
      case Fail => Fail
      case Done(t, rest') => if IsUtf8(t) then Done(PText(TextOf(t)), rest') else Fail
  }

  function PyNum(p: Parse<nat>): Parse<PVal> {
    match p
    case Done(n, rest) => Done(PNum(n), rest)
    case Fail => Fail
  }

  /** Two's complement. */
  function Signed(w: nat): int { (w + 0x8000_0000) % W32 - 0x8000_0000 }

  ghost function PyOne(ty: Ty, s: seq<Byte>): Parse<PVal>
    decreases ty
  {
    match ty
    case TBool => if s == [] then Fail else Done(PFlag(s[0] != 0), s[1..])
    case TU16 => PyNum(DecodeInt(s, 2))
    case TU32 => PyNum(DecodeInt(s, 4))
    case TU64 => PyNum(DecodeInt(s, 8))
    case TI32 =>
      (match DecodeInt(s, 4)
       case Done(w, rest) => Done(PNum(Signed(w)), rest)
       case Fail => Fail)
    case TStr => PyText(s)
    case TList(item) =>
      (match DecodeInt(s, 4)
       case Fail => Fail
       case Done(n, rest) =>
         match PyRows(item, n, rest)
         case Done(rows, rest') => Done(PRows(rows), rest')
         case Fail => Fail)
  }

  ghost function PyRows(item: seq<Ty>, n: nat, s: seq<Byte>): Parse<seq<seq<PVal>>>
    decreases item, n
  {
    if n == 0 then Done([], s)
    else
      match PyAll(item, s)
      case Fail => Fail
      case Done(row, rest) =>
        match PyRows(item, n - 1, rest)
        case Fail => Fail
        case Done(rows, rest') => Done([row] + rows, rest')
  }

  ghost function PyAll(tys: seq<Ty>, s: seq<Byte>): Parse<seq<PVal>>
    decreases tys, 0
  {
    if tys == [] then Done([], s)
    else
      match PyOne(tys[0], s)
      case Fail => Fail
      case Done(v, rest) =>
        match PyAll(tys[1..], rest)
        case Fail => Fail
        case Done(vs, rest') => Done([v] + vs, rest')
  }

  // ----------------------------------------------------- the same value in both

  /** Every string of the value is UTF-8. */
  ghost predicate Clean(ty: Ty, v: Val)
    requires HasType(ty, v)
    decreases ty
  {
    match ty
    case TStr => IsUtf8(v.s)
    case TList(item) => CleanRows(item, v.rows)
    case _ => true
  }

  ghost predicate CleanRows(item: seq<Ty>, rows: seq<seq<Val>>)
    requires AllTyped(item, rows)
    decreases item, |rows|
  {
    rows != [] ==> CleanAll(item, rows[0]) && CleanRows(item, rows[1..])
  }

  ghost predicate CleanAll(tys: seq<Ty>, vs: seq<Val>)
    requires HasTypes(tys, vs)
    decreases tys, 0
  {
    tys != [] ==> Clean(tys[0], vs[0]) && CleanAll(tys[1..], vs[1..])
  }

  /** How Python sees a value. */
  ghost function View(ty: Ty, v: Val): PVal
    requires HasType(ty, v) && Clean(ty, v)
    decreases ty
  {
    match ty
    case TBool => PFlag(v.b)
    case TStr => PText(TextOf(v.s))
    case TList(item) => PRows(ViewRows(item, v.rows))
    case _ => PNum(v.n)
  }

  ghost function ViewRows(item: seq<Ty>, rows: seq<seq<Val>>): seq<seq<PVal>>
    requires AllTyped(item, rows) && CleanRows(item, rows)
    decreases item, |rows|
  {
    if rows == [] then [] else [ViewAll(item, rows[0])] + ViewRows(item, rows[1..])
  }

  ghost function ViewAll(tys: seq<Ty>, vs: seq<Val>): seq<PVal>
    requires HasTypes(tys, vs) && CleanAll(tys, vs)
    decreases tys, 0
  {
    if tys == [] then [] else [View(tys[0], vs[0])] + ViewAll(tys[1..], vs[1..])
  }

  // --------------------------------------------------------- decoders agree

  lemma SignedIs(w: nat)
    requires w < W32
    ensures Signed(w) == FromWord(w)
  {
    if w < 0x8000_0000 {
      ModUnique(w + 0x8000_0000, W32, 0, w + 0x8000_0000);
    } else {
      ModUnique(w + 0x8000_0000, W32, 1, w - 0x8000_0000);
    }
  }

  lemma {:induction false} OneAgrees(ty: Ty, s: seq<Byte>)
    ensures var c, p := DecodeOne(ty, s), PyOne(ty, s);
      if c.Done? then
        HasType(ty, c.v) && p == if Clean(ty, c.v) then Done(View(ty, c.v), c.rest) else Fail
      else p.Fail?
    decreases ty
  {
    if DecodeOne(ty, s).Done? {
      OneMeasured(ty, s);
    }
    match ty
    case TI32 =>
      if DecodeInt(s, 4).Done? {
        IntMeasured(s, 4);
        Pow256Is();
        SignedIs(DecodeInt(s, 4).v);
      }
    case TList(item) =>
      if DecodeInt(s, 4).Done? {
        RowsAgree(item, DecodeInt(s, 4).v, DecodeInt(s, 4).rest);
      }
    case _ =>
  }

  lemma {:induction false} RowsAgree(item: seq<Ty>, n: nat, s: seq<Byte>)
    ensures var c, p := DecodeRows(item, n, s), PyRows(item, n, s);
      if c.Done? then
        AllTyped(item, c.v) && p == if CleanRows(item, c.v) then Done(ViewRows(item, c.v), c.rest) else Fail
      else p.Fail?
    decreases item, n
  {
    if n > 0 {
      AllAgree(item, s);
      var row := DecodeAll(item, s);
      if row.Done? {
        RowsAgree(item, n - 1, row.rest);
        var more := DecodeRows(item, n - 1, row.rest);
        if more.Done? {
          assert ([row.v] + more.v)[1..] == more.v;
        }
      }
    }
  }

  /**
   On any bytes at all, the Python decoder gives what the C++ decoder gives, and fails exactly when that
   one fails or some string is not UTF-8.
   */
  lemma {:induction false} AllAgree(tys: seq<Ty>, s: seq<Byte>)
    ensures var c, p := DecodeAll(tys, s), PyAll(tys, s);
      if c.Done? then
        HasTypes(tys, c.v) && p == if CleanAll(tys, c.v) then Done(ViewAll(tys, c.v), c.rest) else Fail
      else p.Fail?
    decreases tys, 0
  {
    if tys != [] {
      OneAgrees(tys[0], s);
      var one := DecodeOne(tys[0], s);
      if one.Done? {
        AllAgree(tys[1..], one.rest);
        var more := DecodeAll(tys[1..], one.rest);
        if more.Done? {
          assert ([one.v] + more.v)[1..] == more.v;
        }
      }
    }
  }

  /** Python reads what C++ wrote, if and only if every string is UTF-8. */
  lemma PyReadsCpp(tys: seq<Ty>, vs: seq<Val>, rest: seq<Byte>)
    requires HasTypes(tys, vs) && CountedAll(tys, vs)
    ensures PyAll(tys, EncodeAll(tys, vs) + rest) == if CleanAll(tys, vs) then Done(ViewAll(tys, vs), rest) else Fail
  {
    AllBack(tys, vs, rest);
    AllAgree(tys, EncodeAll(tys, vs) + rest);
  }

  // ----------------------------------------------------------------- requests

  /** The arguments of the Python request builders: unbounded integers, optional coordinates. */
  datatype PyJob = PyJob(tenant: int, job: int, launch: int, name: string)

  datatype PyFilter = PyFilter(pp: Option<int>, tp: Option<int>, ep: Option<int>, etp: Option<int>, expert: Option<int>)

  function OrZero(o: Option<int>): int { if o.Some? then o.value else 0 }

  function PyLe32(n: int): seq<Byte> { Le(n % W32, 4) }

  function PyLe64(n: int): seq<Byte> { Le(n % W64, 8) }

  /** A signed 32-bit value, or an error. */
  function PyI32(n: int): Parse<seq<Byte>> {
    if -0x8000_0000 <= n < 0x8000_0000 then Done(Le(n % W32, 4), []) else Fail
  }

  function PyStr(t: string): seq<Byte> { PyLe32(|Utf8(t)|) + Utf8(t) }

  function PyBool(b: bool): seq<Byte> { [if b then 1 else 0] }

  function PyJobKey(j: PyJob): seq<Byte> { PyLe64(j.tenant) + PyLe64(j.job) + PyLe64(j.launch) + PyStr(j.name) }

  function PyCoord(o: Option<int>): seq<Byte> { PyBool(o.Some?) + PyLe32(OrZero(o)) }

  function EncodeGetManifest(j: PyJob, role: int, version: int, f: PyFilter): Parse<seq<Byte>> {
    match PyI32(OrZero(f.expert))
    case Fail => Fail
    case Done(e, _) =>
      Done(PyJobKey(j) + PyLe32(role) + PyLe64(version)
           + PyCoord(f.pp) + PyCoord(f.tp) + PyCoord(f.ep) + PyCoord(f.etp) + PyBool(f.expert.Some?) + e, [])
  }

  /** What the daemon is asked: integers modulo their width, the expert with its sign. */
  function Asked(j: PyJob, role: int, version: int, f: PyFilter): ManifestRequest
    requires -0x8000_0000 <= OrZero(f.expert) < 0x8000_0000
  {
    ManifestRequest(
      JobKey(j.tenant % W64, j.job % W64, j.launch % W64, Utf8(j.name)), role % W32, version % W64,
      FilterAsked(f))
  }

  function FilterAsked(f: PyFilter): Filter
    requires -0x8000_0000 <= OrZero(f.expert) < 0x8000_0000
  {
    Filter(f.pp.Some?, OrZero(f.pp) % W32, f.tp.Some?, OrZero(f.tp) % W32, f.ep.Some?, OrZero(f.ep) % W32,
           f.etp.Some?, OrZero(f.etp) % W32, f.expert.Some?, OrZero(f.expert))
  }

  lemma WordOfSigned(n: int)
    requires -0x8000_0000 <= n < 0x8000_0000
    ensures n % W32 == ToWord(n)
  {
  }

  lemma Assoc(a: seq<Byte>, b: seq<Byte>, c: seq<Byte>)
    ensures a + (b + c) == a + b + c
  {
  }

  /** Bytes of consecutive fields are concatenated. */
  lemma {:induction false} EncodeAppend(a: seq<Ty>, va: seq<Val>, b: seq<Ty>, vb: seq<Val>)
    requires HasTypes(a, va) && HasTypes(b, vb)
    ensures HasTypes(a + b, va + vb) && EncodeAll(a + b, va + vb) == EncodeAll(a, va) + EncodeAll(b, vb)
    decreases |a|
  {
    if a == [] {
      assert a + b == b && va + vb == vb;
    } else {
      assert (a + b)[1..] == a[1..] + b && (va + vb)[1..] == va[1..] + vb;
      EncodeAppend(a[1..], va[1..], b, vb);
      Assoc(EncodeOne(a[0], va[0]), EncodeAll(a[1..], va[1..]), EncodeAll(b, vb));
    }
  }

  lemma OneField(ty: Ty, v: Val)
    requires HasType(ty, v)
    ensures HasTypes([ty], [v]) && EncodeAll([ty], [v]) == EncodeOne(ty, v)
  {
    assert [ty][1..] == [] && [v][1..] == [];
    assert EncodeAll([ty], [v]) == EncodeOne(ty, v) + [];
  }

  lemma TwoFields(t: Ty, v: Val, t': Ty, v': Val)
    requires HasType(t, v) && HasType(t', v')
    ensures HasTypes([t, t'], [v, v']) && EncodeAll([t, t'], [v, v']) == EncodeOne(t, v) + EncodeOne(t', v')
  {
    OneField(t, v);
    OneField(t', v');
    EncodeAppend([t], [v], [t'], [v']);
    assert [t] + [t'] == [t, t'] && [v] + [v'] == [v, v'];
  }

  lemma JobBytes(j: PyJob)
    ensures var k := JobKey(j.tenant % W64, j.job % W64, j.launch % W64, Utf8(j.name));
      HasTypes(JOB, JobVals(k)) && EncodeAll(JOB, JobVals(k)) == PyJobKey(j)
  {
    var a, b, c, n := Num(j.tenant % W64), Num(j.job % W64), Num(j.launch % W64), Text(Utf8(j.name));
    TwoFields(TU64, a, TU64, b);
    TwoFields(TU64, c, TStr, n);
    EncodeAppend([TU64, TU64], [a, b], [TU64, TStr], [c, n]);
    assert [TU64, TU64] + [TU64, TStr] == JOB;
    assert [a, b] + [c, n] == [a, b, c, n];
  }

  lemma CoordsBytes(o: Option<int>, o': Option<int>)
    ensures var vs := RankVals(o.Some?, OrZero(o) % W32, o'.Some?, OrZero(o') % W32);
      HasTypes(RANKS, vs) && EncodeAll(RANKS, vs) == PyCoord(o) + PyCoord(o')
  {
    var a, b, c, d := Flag(o.Some?), Num(OrZero(o) % W32), Flag(o'.Some?), Num(OrZero(o') % W32);
    TwoFields(TBool, a, TU32, b);
    TwoFields(TBool, c, TU32, d);
    EncodeAppend([TBool, TU32], [a, b], [TBool, TU32], [c, d]);
    assert [TBool, TU32] + [TBool, TU32] == RANKS;
    assert [a, b] + [c, d] == [a, b, c, d];
  }

  lemma FilterBytes(f: PyFilter)
    requires -0x8000_0000 <= OrZero(f.expert) < 0x8000_0000
    ensures var g := FilterAsked(f);
      && HasTypes(FILTER, FilterVals(g))
      && EncodeAll(FILTER, FilterVals(g))
         == PyCoord(f.pp) + PyCoord(f.tp) + (PyCoord(f.ep) + PyCoord(f.etp)) + (PyBool(f.expert.Some?)
           + Le(OrZero(f.expert) % W32, 4))
  {
    var r, q := RankVals(f.pp.Some?, OrZero(f.pp) % W32, f.tp.Some?, OrZero(f.tp) % W32),
                RankVals(f.ep.Some?, OrZero(f.ep) % W32, f.etp.Some?, OrZero(f.etp) % W32);
    CoordsBytes(f.pp, f.tp);
    CoordsBytes(f.ep, f.etp);
    ExpertBytes(f.expert);
    EncodeAppend(RANKS, r, RANKS, q);
    EncodeAppend(RANKS + RANKS, r + q, EXPERT, [Flag(f.expert.Some?), Num(OrZero(f.expert))]);
  }

  lemma ExpertBytes(o: Option<int>)
    requires -0x8000_0000 <= OrZero(o) < 0x8000_0000
    ensures var vs := [Flag(o.Some?), Num(OrZero(o))];
      HasTypes(EXPERT, vs) && EncodeAll(EXPERT, vs) == PyBool(o.Some?) + Le(OrZero(o) % W32, 4)
  {
    WordOfSigned(OrZero(o));
    TwoFields(TBool, Flag(o.Some?), TI32, Num(OrZero(o)));
  }

  lemma RequestBytes(j: PyJob, role: int, version: int, f: PyFilter)
    requires -0x8000_0000 <= OrZero(f.expert) < 0x8000_0000
    ensures var vs := RequestVals(Asked(j, role, version, f));
      && HasTypes(MANIFEST_REQUEST, vs)
      && EncodeGetManifest(j, role, version, f) == Done(EncodeAll(MANIFEST_REQUEST, vs), [])
  {
    var m := Asked(j, role, version, f);
    var vs := [Num(m.role), Num(m.version)];
    JobBytes(j);
    TwoFields(TU32, Num(m.role), TU64, Num(m.version));
    FilterBytes(f);
    EncodeAppend(JOB, JobVals(m.job), VERSION, vs);
    EncodeAppend(JOB + VERSION, JobVals(m.job) + vs, FILTER, FilterVals(m.filter));
    Regroup(PyJobKey(j), PyLe32(role), PyLe64(version), PyCoord(f.pp), PyCoord(f.tp), PyCoord(f.ep), PyCoord(f.etp),
            PyBool(f.expert.Some?), Le(OrZero(f.expert) % W32, 4));
  }

  lemma Regroup(a: seq<Byte>, b: seq<Byte>, c: seq<Byte>, p: seq<Byte>, q: seq<Byte>, r: seq<Byte>, s: seq<Byte>,
                t: seq<Byte>, u: seq<Byte>)
    ensures a + b + c + p + q + r + s + t + u == a + (b + c) + (p + q + (r + s) + (t + u))
  {
  }

  /**
   The daemon decodes the Python request to what was asked, negative expert included; the builder fails
   exactly when the expert is no 32-bit value.
   */
  lemma CppReadsPy(j: PyJob, role: int, version: int, f: PyFilter, rest: seq<Byte>)
    requires |Utf8(j.name)| < W32
    ensures EncodeGetManifest(j, role, version, f).Done? <==> -0x8000_0000 <= OrZero(f.expert) < 0x8000_0000
    ensures EncodeGetManifest(j, role, version, f).Done? ==>
      var p := DecodeAll(MANIFEST_REQUEST, EncodeGetManifest(j, role, version, f).v + rest);
      p.Done? && p.rest == rest && RequestOf(p.v) == Asked(j, role, version, f)
  {
    if -0x8000_0000 <= OrZero(f.expert) < 0x8000_0000 {
      var m := Asked(j, role, version, f);
      RequestBytes(j, role, version, f);
      RequestTyped(m);
      AllBack(MANIFEST_REQUEST, RequestVals(m), rest);
      RequestAgain(m);
    }
  }

  lemma MaskedIff(n: int, w: nat)
    requires w > 0
    ensures n % w == n <==> 0 <= n < w
  {
    if 0 <= n < w { ModUnique(n, w, 0, n); }
  }

  /** A number arrives as it was given exactly when it fits its width. */
  lemma CoordExactIff(j: PyJob, role: int, version: int, f: PyFilter)
    requires -0x8000_0000 <= OrZero(f.expert) < 0x8000_0000
    ensures Asked(j, role, version, f).filter.pp == OrZero(f.pp) <==> 0 <= OrZero(f.pp) < W32
    ensures Asked(j, role, version, f).filter.tp == OrZero(f.tp) <==> 0 <= OrZero(f.tp) < W32
    ensures Asked(j, role, version, f).filter.ep == OrZero(f.ep) <==> 0 <= OrZero(f.ep) < W32
    ensures Asked(j, role, version, f).filter.etp == OrZero(f.etp) <==> 0 <= OrZero(f.etp) < W32
    ensures Asked(j, role, version, f).role == role <==> 0 <= role < W32
    ensures Asked(j, role, version, f).version == version <==> 0 <= version < W64
    ensures Asked(j, role, version, f).filter.expert == OrZero(f.expert)
  {
    MaskedIff(role, W32);
    MaskedIff(version, W64);
    MaskedIff(OrZero(f.pp), W32);
    MaskedIff(OrZero(f.tp), W32);
    MaskedIff(OrZero(f.ep), W32);
    MaskedIff(OrZero(f.etp), W32);
  }

  /** One field in front of others, as Python sees it. */
  lemma ViewCons(ty: Ty, v: Val, tys: seq<Ty>, vs: seq<Val>)
    requires HasTypes([ty] + tys, [v] + vs) && HasType(ty, v) && HasTypes(tys, vs)
    ensures CleanAll([ty] + tys, [v] + vs) <==> Clean(ty, v) && CleanAll(tys, vs)
    ensures CleanAll([ty] + tys, [v] + vs) ==> ViewAll([ty] + tys, [v] + vs) == [View(ty, v)] + ViewAll(tys, vs)
  {
    assert ([ty] + tys)[1..] == tys && ([v] + vs)[1..] == vs;
  }

  lemma NameView(t: string)
    ensures HasTypes([TStr], [Text(Utf8(t))]) && CleanAll([TStr], [Text(Utf8(t))])
    ensures ViewAll([TStr], [Text(Utf8(t))]) == [PText(t)]
  {
    TextOfUtf8(t);
    assert HasType(TStr, Text(Utf8(t))) && HasTypes([], []);
    assert [TStr] == [TStr] + [] && [Text(Utf8(t))] == [Text(Utf8(t))] + [];
    ViewCons(TStr, Text(Utf8(t)), [], []);
  }

  /** Values `vs` of types `tys` are seen as `ps`. */
  ghost predicate Seen(tys: seq<Ty>, vs: seq<Val>, ps: seq<PVal>) {
    HasTypes(tys, vs) && CleanAll(tys, vs) && ViewAll(tys, vs) == ps
  }

  lemma NumSeen(n: nat, tys: seq<Ty>, vs: seq<Val>, ps: seq<PVal>)
    requires n < W64 && Seen(tys, vs, ps)
    ensures Seen([TU64] + tys, [Num(n)] + vs, [PNum(n)] + ps)
  {
    assert ([TU64] + tys)[1..] == tys && ([Num(n)] + vs)[1..] == vs;
    assert HasType(TU64, Num(n));
    ViewCons(TU64, Num(n), tys, vs);
  }

  lemma JobSeen(j: PyJob)
    ensures Seen(JOB, JobVals(JobAsked(j)), JobView(j))
  {
    var a, b, c, n := j.tenant % W64, j.job % W64, j.launch % W64, Text(Utf8(j.name));
    NameView(j.name);
    NumSeen(c, [TStr], [n], [PText(j.name)]);
    NumSeen(b, [TU64] + [TStr], [Num(c)] + [n], [PNum(c)] + [PText(j.name)]);
    NumSeen(a, [TU64] + ([TU64] + [TStr]), [Num(b)] + ([Num(c)] + [n]), [PNum(b)] + ([PNum(c)] + [PText(j.name)]));
    assert [TU64] + ([TU64] + ([TU64] + [TStr])) == JOB;
    assert [Num(a)] + ([Num(b)] + ([Num(c)] + [n])) == JobVals(JobAsked(j));
    assert [PNum(a)] + ([PNum(b)] + ([PNum(c)] + [PText(j.name)])) == JobView(j);
  }

  /** A job key in Python: the name as it was given, the numbers modulo their width. */
  function JobView(j: PyJob): seq<PVal> {
    [PNum(j.tenant % W64), PNum(j.job % W64), PNum(j.launch % W64), PText(j.name)]
  }

  /** Python reads its own job key back. */
  lemma JobKeyBack(j: PyJob, rest: seq<Byte>)
    requires |Utf8(j.name)| < W32
    ensures PyAll(JOB, PyJobKey(j) + rest) == Done(JobView(j), rest)
  {
    JobBytes(j);
    JobTyped(JobAsked(j));
    JobSeen(j);
    PyReadsCpp(JOB, JobVals(JobAsked(j)), rest);
  }

  // ------------------------------------------------ the other two requests

  function JobAsked(j: PyJob): JobKey {
    JobKey(j.tenant % W64, j.job % W64, j.launch % W64, Utf8(j.name))
  }

  function EncodeGetLatest(j: PyJob, role: int): seq<Byte> { PyJobKey(j) + PyLe32(role) }

  /** Bytes that are the encoding of a message's values are read as that message. */
  lemma ReadAs(m: Message, tys: seq<Ty>, vs: seq<Val>, bytes: seq<Byte>, rest: seq<Byte>)
    requires Fields(m) == tys && Typed(tys, vs, true) && bytes == EncodeAll(tys, vs)
    ensures DecodeAll(Fields(m), bytes + rest) == Done(vs, rest)
  {
    AllBack(tys, vs, rest);
  }

  lemma LatestBytes(j: PyJob, role: int)
    requires |Utf8(j.name)| < W32
    ensures var vs := JobVals(JobAsked(j)) + [Num(role % W32)];
      Typed(JOB + [TU32], vs, true) && EncodeGetLatest(j, role) == EncodeAll(JOB + [TU32], vs)
  {
    var v := Num(role % W32);
    JobBytes(j);
    OneField(TU32, v);
    EncodeAppend(JOB, JobVals(JobAsked(j)), [TU32], [v]);
    JobTyped(JobAsked(j));
    TypesByIndex([TU32], [v]);
    TypedAppend(JOB, JobVals(JobAsked(j)), true, [TU32], [v], true);
  }

  /** The daemon reads the request for the latest version as it was made, its numbers modulo their width. */
  lemma LatestReadsPy(j: PyJob, role: int, rest: seq<Byte>)
    requires |Utf8(j.name)| < W32
    ensures DecodeAll(Fields(LatestSealedRequest), EncodeGetLatest(j, role) + rest)
      == Done(JobVals(JobAsked(j)) + [Num(role % W32)], rest)
  {
    LatestBytes(j, role);
    ReadAs(LatestSealedRequest, JOB + [TU32], JobVals(JobAsked(j)) + [Num(role % W32)], EncodeGetLatest(j, role), rest);
  }

  function EncodePull(j: PyJob, role: int, version: int, objectId: int, transport: int, target: string): seq<Byte> {
    PyJobKey(j) + PyLe32(role) + PyLe64(version) + PyLe64(objectId) + PyLe32(transport) + PyStr(target)
  }

  const PULL: seq<Ty> := [TU64, TU32, TStr]

  function PullVals(objectId: int, transport: int, target: string): seq<Val> {
    [Num(objectId % W64), Num(transport % W32), Text(Utf8(target))]
  }

  lemma PullTail(objectId: int, transport: int, target: string)
    ensures var vs := PullVals(objectId, transport, target);
      && Typed(PULL, vs, |Utf8(target)| < W32)
      && EncodeAll(PULL, vs) == PyLe64(objectId) + PyLe32(transport) + PyStr(target)
  {
    var a, b, c := Num(objectId % W64), Num(transport % W32), Text(Utf8(target));
    TwoFields(TU64, a, TU32, b);
    OneField(TStr, c);
    EncodeAppend([TU64, TU32], [a, b], [TStr], [c]);
    assert [TU64, TU32] + [TStr] == PULL && [a, b] + [c] == PullVals(objectId, transport, target);
    TypesByIndex(PULL, [a, b, c]);
    assert Counted(PULL[2], [a, b, c][2]) <==> |Utf8(target)| < W32;
  }

  function PullRequestVals(j: PyJob, role: int, version: int, objectId: int, transport: int, target: string): seq<Val> {
    JobVals(JobAsked(j)) + [Num(role % W32), Num(version % W64)] + PullVals(objectId, transport, target)
  }

  lemma PullTyped(j: PyJob, role: int, version: int, objectId: int, transport: int, target: string)
    requires |Utf8(j.name)| < W32 && |Utf8(target)| < W32
    ensures Typed(JOB + VERSION + PULL, PullRequestVals(j, role, version, objectId, transport, target), true)
  {
    var job, ver := JobVals(JobAsked(j)), [Num(role % W32), Num(version % W64)];
    JobTyped(JobAsked(j));
    VersionTyped(role % W32, version % W64);
    PullTail(objectId, transport, target);
    TypedAppend(JOB, job, true, VERSION, ver, true);
    TypedAppend(JOB + VERSION, job + ver, true, PULL, PullVals(objectId, transport, target), true);
  }

  lemma PullBytes(j: PyJob, role: int, version: int, objectId: int, transport: int, target: string)
    ensures var vs := PullRequestVals(j, role, version, objectId, transport, target);
      && HasTypes(JOB + VERSION + PULL, vs)
      && EncodePull(j, role, version, objectId, transport, target) == EncodeAll(JOB + VERSION + PULL, vs)
  {
    var job, ver := JobVals(JobAsked(j)), [Num(role % W32), Num(version % W64)];
    JobBytes(j);
    TwoFields(TU32, Num(role % W32), TU64, Num(version % W64));
    PullTail(objectId, transport, target);
    EncodeAppend(JOB, job, VERSION, ver);
    EncodeAppend(JOB + VERSION, job + ver, PULL, PullVals(objectId, transport, target));
    PullRegroup(PyJobKey(j), PyLe32(role), PyLe64(version), PyLe64(objectId), PyLe32(transport), PyStr(target));
  }

  lemma PullFields()
    ensures Fields(PullTensorRequest) == JOB + VERSION + PULL
  {
  }

  /** The daemon reads the pull request as it was made, its numbers modulo their width. */
  lemma PullReadsPy(j: PyJob, role: int, version: int, objectId: int, transport: int, target: string, rest: seq<Byte>)
    requires |Utf8(j.name)| < W32 && |Utf8(target)| < W32
    ensures DecodeAll(Fields(PullTensorRequest), EncodePull(j, role, version, objectId, transport, target) + rest)
      == Done(PullRequestVals(j, role, version, objectId, transport, target), rest)
  {
    PullTyped(j, role, version, objectId, transport, target);
    PullBytes(j, role, version, objectId, transport, target);
    PullFields();
    ReadAs(PullTensorRequest, JOB + VERSION + PULL, PullRequestVals(j, role, version, objectId, transport, target),
           EncodePull(j, role, version, objectId, transport, target), rest);
  }

  lemma PullRegroup(a: seq<Byte>, b: seq<Byte>, c: seq<Byte>, d: seq<Byte>, e: seq<Byte>, f: seq<Byte>)
    ensures a + b + c + d + e + f == a + (b + c) + (d + e + f)
  {
  }
}
