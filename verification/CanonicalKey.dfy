/**
 The identity of a canonical tensor and the string under which the object table
 indexes it. Every unsigned field is written in decimal into a buffer of 21
 bytes, so the ':' that ends it is lost, and read as NUL, when it has 20 digits.
 */
module CanonicalKey {
  import opened Bits

  datatype JobUid = JobUid(tenant: U64, job: U64, launch: U64)

  /** `jobName` and `fqnDebug` are for display and are not part of the identity. */
  datatype Key = Key(
    job: JobUid, jobName: string,
    role: U64, version: U64, param: U64, fqnHash: U64, fqnDebug: string,
    dtype: U64, layout: U64, nbytes: U64, shapeHash: U64, strideHash: U64,
    pp: U64, tp: U64, ep: U64, etp: U64, expert: I32,
    shardOffset: U64, shardNbytes: U64)

  predicate SameIdentity(a: Key, b: Key) {
    && a.job.tenant == b.job.tenant && a.job.job == b.job.job && a.job.launch == b.job.launch
    && a.role == b.role && a.version == b.version && a.param == b.param && a.fqnHash == b.fqnHash
    && a.dtype == b.dtype && a.layout == b.layout && a.nbytes == b.nbytes
    && a.shapeHash == b.shapeHash && a.strideHash == b.strideHash
    && a.pp == b.pp && a.tp == b.tp && a.ep == b.ep && a.etp == b.etp
    && a.expert == b.expert && a.shardOffset == b.shardOffset && a.shardNbytes == b.shardNbytes
  }

  // ------------------------------------------------------------ serializer

  function Digit(d: nat): char
    requires d < 10
  {
    '0' + d as char
  }

  predicate IsDigit(c: char) { '0' <= c <= '9' }

  function Decimal(v: nat): (s: string)
    ensures |s| > 0 && forall i | 0 <= i < |s| :: IsDigit(s[i])
  {
    if v < 10 then [Digit(v)] else Decimal(v / 10) + [Digit(v % 10)]
  }

  function Pow10(n: nat): nat {
    if n == 0 then 1 else 10 * Pow10(n - 1)
  }

  lemma {:induction false} DecimalLength(v: nat, n: nat)
    requires n >= 1
    ensures |Decimal(v)| <= n <==> v < Pow10(n)
    decreases n
  {
    if n == 1 {
      assert Pow10(1) == 10;
    } else if v >= 10 {
      DecimalLength(v / 10, n - 1);
    } else {
      DecimalLength(v, n - 1);
    }
  }

  lemma Pow10Of20()
    ensures Pow10(19) == 10_000_000_000_000_000_000 && Pow10(20) > W64
  {
    assert Pow10(5) == 100_000;
    assert Pow10(10) == 10_000_000_000;
    assert Pow10(15) == 1_000_000_000_000_000;
  }

  /** The first |t| bytes of a buffer of `size` bytes into which `t` was formatted. */
  function Printed(t: string, size: nat): string
    requires 0 < |t| <= size
  {
    if |t| < size then t else t[..size - 1] + "\0"
  }

  lemma FitsBuffer(v: nat)
    requires v < W64
    ensures |Decimal(v)| <= 20
  {
    DecimalLength(v, 20);
    Pow10Of20();
  }

  function AppendU64(v: U64): string {
    FitsBuffer(v);
    Printed(Decimal(v) + ":", 21)
  }

  function Magnitude(v: I32): nat {
    var n: int := v;
    if n < 0 then -n else n
  }

  function Sign(v: I32): string {
    if v < 0 then "-" else ""
  }

  /** A signed 32-bit value, formatted into 24 bytes. */
  function AppendI64(v: I32): (s: string)
    ensures s == Sign(v) + (Decimal(Magnitude(v)) + ":")
  {
    FitsBuffer(Magnitude(v));
    Printed(Sign(v) + (Decimal(Magnitude(v)) + ":"), 24)
  }

  /** The separator is lost exactly from 10^19 on. */
  lemma SeparatorLostIff(v: U64)
    ensures var s := AppendU64(v); s == Decimal(v) + [if v < 10_000_000_000_000_000_000 then ':' else '\0']
  {
    DecimalLength(v, 19);
    Pow10Of20();
    FitsBuffer(v);
  }

  function AppendAll(vs: seq<U64>): string {
    if vs == [] then "" else AppendU64(vs[0]) + AppendAll(vs[1..])
  }

  function BeforeExpert(k: Key): (vs: seq<U64>)
    ensures |vs| == 16
  {
    [k.job.tenant, k.job.job, k.job.launch, k.role, k.version, k.param, k.fqnHash, k.dtype, k.layout,
     k.nbytes, k.shapeHash, k.strideHash, k.pp, k.tp, k.ep, k.etp]
  }

  function AfterExpert(k: Key): (vs: seq<U64>)
    ensures |vs| == 2
  {
    [k.shardOffset, k.shardNbytes]
  }

  function KeyString(k: Key): string {
    AppendAll(BeforeExpert(k)) + (AppendI64(k.expert) + AppendAll(AfterExpert(k)))
  }

  // ------------------------------------------------------------ injectivity

  function Value(s: string): nat
    requires forall i | 0 <= i < |s| :: IsDigit(s[i])
  {
    if s == [] then 0 else assert IsDigit(s[|s| - 1]); 10 * Value(s[..|s| - 1]) + (s[|s| - 1] as int - '0' as int)
  }

  lemma {:induction false} ValueOfDecimal(v: nat)
    ensures Value(Decimal(v)) == v
  {
    if v >= 10 {
      ValueOfDecimal(v / 10);
      assert Decimal(v)[..|Decimal(v)| - 1] == Decimal(v / 10);
    } else {
      assert Decimal(v)[..0] == [];
    }
  }

  function LeadingDigits(s: string): nat {
    if s == [] || !IsDigit(s[0]) then 0 else 1 + LeadingDigits(s[1..])
  }

  lemma {:induction false} DigitsRun(d: string, e: char, x: string)
    requires (forall i | 0 <= i < |d| :: IsDigit(d[i])) && !IsDigit(e)
    ensures LeadingDigits(d + [e] + x) == |d|
    decreases |d|
  {
    if d == [] {
      assert d + [e] + x == [e] + x;
    } else {
      assert (d + [e] + x)[1..] == d[1..] + [e] + x;
      DigitsRun(d[1..], e, x);
    }
  }

  /** Runs of digits that are ended by a non-digit are read back uniquely, whatever follows. */
  lemma DigitsEnd(a: nat, b: nat, ea: char, eb: char, x: string, y: string)
    requires Decimal(a) + [ea] + x == Decimal(b) + [eb] + y && !IsDigit(ea) && !IsDigit(eb)
    ensures a == b && ea == eb && x == y
  {
    var da, db := Decimal(a), Decimal(b);
    var s := da + [ea] + x;
    DigitsRun(da, ea, x);
    DigitsRun(db, eb, y);
    assert s == db + [eb] + y;
    assert da == s[..|da|] && db == s[..|db|];
    assert s[|da|] == ea && s[|db|] == eb;
    assert x == s[|da| + 1..] && y == s[|db| + 1..];
    ValueOfDecimal(a);
    ValueOfDecimal(b);
  }

  lemma U64Prefix(a: U64, b: U64, x: string, y: string)
    requires AppendU64(a) + x == AppendU64(b) + y
    ensures a == b && x == y
  {
    SeparatorLostIff(a);
    SeparatorLostIff(b);
    DigitsEnd(a, b, AppendU64(a)[|Decimal(a)|], AppendU64(b)[|Decimal(b)|], x, y);
  }

  lemma I64Prefix(a: I32, b: I32, x: string, y: string)
    requires AppendI64(a) + x == AppendI64(b) + y
    ensures a == b && x == y
  {
    var m, n := Magnitude(a), Magnitude(b);
    var s := AppendI64(a) + x;
    assert s == Sign(a) + (Decimal(m) + [':'] + x);
    assert s == Sign(b) + (Decimal(n) + [':'] + y);
    assert a < 0 <==> s[0] == '-' by { assert IsDigit(Decimal(m)[0]); }
    assert b < 0 <==> s[0] == '-' by { assert IsDigit(Decimal(n)[0]); }
    assert Decimal(m) + [':'] + x == s[|Sign(a)|..] && Decimal(n) + [':'] + y == s[|Sign(b)|..];
    DigitsEnd(m, n, ':', ':', x, y);
  }

  lemma {:induction false} AllPrefix(as_: seq<U64>, bs: seq<U64>, x: string, y: string)
    requires |as_| == |bs| && AppendAll(as_) + x == AppendAll(bs) + y
    ensures as_ == bs && x == y
    decreases |as_|
  {
    if as_ != [] {
      assert AppendAll(as_) + x == AppendU64(as_[0]) + (AppendAll(as_[1..]) + x);
      assert AppendAll(bs) + y == AppendU64(bs[0]) + (AppendAll(bs[1..]) + y);
      U64Prefix(as_[0], bs[0], AppendAll(as_[1..]) + x, AppendAll(bs[1..]) + y);
      AllPrefix(as_[1..], bs[1..], x, y);
      assert as_ == [as_[0]] + as_[1..] && bs == [bs[0]] + bs[1..];
    } else {
      assert "" + x == x && "" + y == y;
    }
  }

  /** Identity fields are exactly what the two field lists and the expert id hold. */
  lemma IdentityIsFields(a: Key, b: Key)
    ensures SameIdentity(a, b) <==>
      BeforeExpert(a) == BeforeExpert(b) && a.expert == b.expert && AfterExpert(a) == AfterExpert(b)
  {
    if BeforeExpert(a) == BeforeExpert(b) && AfterExpert(a) == AfterExpert(b) {
      FieldsAt(a, b);
    }
  }

  lemma FieldsAt(a: Key, b: Key)
    requires BeforeExpert(a) == BeforeExpert(b) && AfterExpert(a) == AfterExpert(b)
    ensures a.expert == b.expert ==> SameIdentity(a, b)
  {
    var p, q := BeforeExpert(a), BeforeExpert(b);
    assert p[0] == q[0] && p[1] == q[1] && p[2] == q[2] && p[3] == q[3] && p[4] == q[4] && p[5] == q[5];
    assert p[6] == q[6] && p[7] == q[7] && p[8] == q[8] && p[9] == q[9] && p[10] == q[10] && p[11] == q[11];
    assert p[12] == q[12] && p[13] == q[13] && p[14] == q[14] && p[15] == q[15];
    assert AfterExpert(a)[0] == AfterExpert(b)[0] && AfterExpert(a)[1] == AfterExpert(b)[1];
  }

  /** Deduplication is exact: two keys have one string if and only if all 19 identity fields agree. */
  lemma KeyStringExact(a: Key, b: Key)
    ensures KeyString(a) == KeyString(b) <==> SameIdentity(a, b)
  {
    IdentityIsFields(a, b);
    if KeyString(a) == KeyString(b) {
      var ra := AppendI64(a.expert) + AppendAll(AfterExpert(a));
      var rb := AppendI64(b.expert) + AppendAll(AfterExpert(b));
      AllPrefix(BeforeExpert(a), BeforeExpert(b), ra, rb);
      I64Prefix(a.expert, b.expert, AppendAll(AfterExpert(a)), AppendAll(AfterExpert(b)));
      assert AppendAll(AfterExpert(a)) + "" == AppendAll(AfterExpert(b)) + "";
      AllPrefix(AfterExpert(a), AfterExpert(b), "", "");
    }
  }
}
