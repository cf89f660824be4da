/**
 The control-plane byte format: little-endian integers, counted strings and
 counted lists of records. A message is a list of typed fields.
 */
module WireFormat {
  import opened Bits

  /** Field types; a list holds records of its item fields. */
  datatype Ty = TBool | TU16 | TU32 | TU64 | TI32 | TStr | TList(item: seq<Ty>)

  datatype Val = Flag(b: bool) | Num(n: int) | Text(s: seq<Byte>) | Rows(rows: seq<seq<Val>>)

  /** A decoder's outcome: a value and the bytes after it, or a truncated message. */
  datatype Parse<T> = Done(v: T, rest: seq<Byte>) | Fail

  // ------------------------------------------------------------------ integers

  /** `n` in `k` bytes, least significant first. */
  function Le(n: nat, k: nat): (s: seq<Byte>)
    ensures |s| == k
  {
    if k == 0 then [] else [n % 256] + Le(n / 256, k - 1)
  }

  function UnLe(s: seq<Byte>): nat {
    if s == [] then 0 else s[0] + 256 * UnLe(s[1..])
  }

  function Pow256(k: nat): (p: nat)
    ensures p >= 1
  {
    if k == 0 then 1 else 256 * Pow256(k - 1)
  }

  lemma {:induction false} UnLeOfLe(n: nat, k: nat)
    requires n < Pow256(k)
    ensures UnLe(Le(n, k)) == n
  {
    if k > 0 {
      UnLeOfLe(n / 256, k - 1);
      assert Le(n, k)[1..] == Le(n / 256, k - 1);
    }
  }

  lemma {:induction false} UnLeBound(s: seq<Byte>)
    ensures UnLe(s) < Pow256(|s|)
  {
    if s != [] {
      UnLeBound(s[1..]);
    }
  }

  lemma Pow256Is()
    ensures Pow256(2) == 65536 && Pow256(4) == W32 && Pow256(8) == W64
  {
    assert Pow256(3) == 256 * Pow256(2);
    assert Pow256(5) == 256 * Pow256(4) && Pow256(6) == 256 * Pow256(5) && Pow256(7) == 256 * Pow256(6);
  }

  /** The 32-bit word that carries a signed value, and back. */
  function ToWord(n: int): nat
    requires -0x8000_0000 <= n < 0x8000_0000
  {
    if n < 0 then n + W32 else n
  }

  function FromWord(w: nat): int { if w < 0x8000_0000 then w else w - W32 }

  // ------------------------------------------------------------------- typing

  ghost predicate HasType(ty: Ty, v: Val)
    decreases ty
  {
    match ty
    case TBool => v.Flag?
    case TU16 => v.Num? && 0 <= v.n < 65536
    case TU32 => v.Num? && 0 <= v.n < W32
    case TU64 => v.Num? && 0 <= v.n < W64
    case TI32 => v.Num? && -0x8000_0000 <= v.n < 0x8000_0000
    case TStr => v.Text?
    case TList(item) => v.Rows? && forall i | 0 <= i < |v.rows| :: HasTypes(item, v.rows[i])
  }

  ghost predicate HasTypes(tys: seq<Ty>, vs: seq<Val>)
    decreases tys
  {
    |vs| == |tys| && (tys != [] ==> HasType(tys[0], vs[0]) && HasTypes(tys[1..], vs[1..]))
  }

  /** Strings and lists are short enough for their 32-bit counts. */
  ghost predicate Counted(ty: Ty, v: Val)
    requires HasType(ty, v)
    decreases ty
  {
    match ty
    case TStr => |v.s| < W32
    case TList(item) => |v.rows| < W32 && forall i | 0 <= i < |v.rows| :: CountedAll(item, v.rows[i])
    case _ => true
  }

  ghost predicate CountedAll(tys: seq<Ty>, vs: seq<Val>)
    requires HasTypes(tys, vs)
    decreases tys
  {
    tys != [] ==> Counted(tys[0], vs[0]) && CountedAll(tys[1..], vs[1..])
  }

  // ----------------------------------------------------------------- encoding

  ghost function EncodeOne(ty: Ty, v: Val): seq<Byte>
    requires HasType(ty, v)
    decreases ty
  {
    match ty
    case TBool => [if v.b then 1 else 0]
    case TU16 => Le(v.n, 2)
    case TU32 => Le(v.n, 4)
    case TU64 => Le(v.n, 8)
    case TI32 => Le(ToWord(v.n), 4)
    case TStr => Le(|v.s| % W32, 4) + v.s
    case TList(item) => Le(|v.rows| % W32, 4) + EncodeRows(item, v.rows)
  }

  ghost function EncodeRows(item: seq<Ty>, rows: seq<seq<Val>>): seq<Byte>
    requires forall i | 0 <= i < |rows| :: HasTypes(item, rows[i])
    decreases item, |rows|
  {
    if rows == [] then [] else EncodeAll(item, rows[0]) + EncodeRows(item, rows[1..])
  }

  ghost function EncodeAll(tys: seq<Ty>, vs: seq<Val>): seq<Byte>
    requires HasTypes(tys, vs)
    decreases tys, 0
  {
    if tys == [] then [] else EncodeOne(tys[0], vs[0]) + EncodeAll(tys[1..], vs[1..])
  }

  // ----------------------------------------------------------------- decoding

  function Take(s: seq<Byte>, n: nat): (p: Parse<seq<Byte>>)
    ensures p.Done? ==> |p.v| == n && s == p.v + p.rest
  {
    if |s| < n then Fail else Done(s[..n], s[n..])
  }

  function DecodeInt(s: seq<Byte>, k: nat): Parse<nat> {
    match Take(s, k)
    case Done(w, rest) => Done(UnLe(w), rest)
    case Fail => Fail
  }

  function AsNum(p: Parse<nat>): Parse<Val> {
    match p
    case Done(n, rest) => Done(Num(n), rest)
    case Fail => Fail
  }

  function DecodeText(s: seq<Byte>): Parse<Val> {
    match DecodeInt(s, 4)
    case Fail => Fail
    case Done(n, rest) =>
      match Take(rest, n)
      case Fail => Fail
      case Done(t, rest') => Done(Text(t), rest')
  }

  function DecodeOne(ty: Ty, s: seq<Byte>): Parse<Val>
    decreases ty
  {
    match ty
    case TBool => if s == [] then Fail else Done(Flag(s[0] != 0), s[1..])
    case TU16 => AsNum(DecodeInt(s, 2))
    case TU32 => AsNum(DecodeInt(s, 4))
    case TU64 => AsNum(DecodeInt(s, 8))
    case TI32 =>
      (match DecodeInt(s, 4)
       case Done(w, rest) => Done(Num(FromWord(w)), rest)
       case Fail => Fail)
    case TStr => DecodeText(s)
    case TList(item) =>
      (match DecodeInt(s, 4)
       case Fail => Fail
       case Done(n, rest) =>
         match DecodeRows(item, n, rest)
         case Done(rows, rest') => Done(Rows(rows), rest')
         case Fail => Fail)
  }

  function DecodeRows(item: seq<Ty>, n: nat, s: seq<Byte>): Parse<seq<seq<Val>>>
    decreases item, n
  {
    if n == 0 then Done([], s)
    else
      match DecodeAll(item, s)
      case Fail => Fail
      case Done(row, rest) =>
        match DecodeRows(item, n - 1, rest)
        case Fail => Fail
        case Done(rows, rest') => Done([row] + rows, rest')
  }

  function DecodeAll(tys: seq<Ty>, s: seq<Byte>): Parse<seq<Val>>
    decreases tys, 0
  {
    if tys == [] then Done([], s)
    else
      match DecodeOne(tys[0], s)
      case Fail => Fail
      case Done(v, rest) =>
        match DecodeAll(tys[1..], rest)
        case Fail => Fail
        case Done(vs, rest') => Done([v] + vs, rest')
  }
}
