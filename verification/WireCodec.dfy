/**
 The C++ codec: a writer that grows a byte vector, a reader that advances a
 cursor, and the field-by-field encoders and decoders built on them.
 */
module WireCodec {
  import opened Bits
  import opened Options
  import opened WireFormat
  import opened WireLaws

  /** Every string is short enough to be written. */
  ghost predicate TextFits(ty: Ty, v: Val)
    requires HasType(ty, v)
    decreases ty
  {
    match ty
    case TStr => |v.s| < W32
    case TList(item) => forall i | 0 <= i < |v.rows| :: TextsFit(item, v.rows[i])
    case _ => true
  }

  ghost predicate TextsFit(tys: seq<Ty>, vs: seq<Val>)
    requires HasTypes(tys, vs)
    decreases tys
  {
    tys != [] ==> TextFits(tys[0], vs[0]) && TextsFit(tys[1..], vs[1..])
  }

  // ------------------------------------------------------------------- writer

  class Writer {
    var buf: seq<Byte>

    constructor ()
      ensures buf == []
    {
      buf := [];
    }

    /** The bytes of an integer in memory order. */
    method Put(n: nat, k: nat)
      modifies this
      ensures buf == old(buf) + Le(n, k)
    {
      var i, x := 0, n;
      while i < k
        invariant i <= k && buf + Le(x, k - i) == old(buf) + Le(n, k)
      {
        ghost var before := buf;
        buf := buf + [x % 256];
        assert before + Le(x, k - i) == before + [x % 256] + Le(x / 256, k - i - 1);
        i, x := i + 1, x / 256;
      }
      assert buf + [] == buf;
    }

    method Bool(b: bool)
      modifies this
      ensures buf == old(buf) + [if b then 1 else 0]
    {
      buf := buf + [if b then 1 else 0];
    }

    /** A string longer than its 32-bit count can say is refused. */
    method Str(s: seq<Byte>) returns (ok: bool)
      modifies this
      ensures ok <==> |s| < W32
      ensures ok ==> buf == old(buf) + Le(|s| % W32, 4) + s
    {
      CountWord(|s|);
      ok := |s| < W32;
      if ok {
        Put(|s|, 4);
        buf := buf + s;
      }
    }

    method One(ty: Ty, v: Val) returns (ok: bool)
      requires HasType(ty, v)
      modifies this
      ensures ok <==> TextFits(ty, v)
      ensures ok ==> buf == old(buf) + EncodeOne(ty, v)
      decreases ty
    {
      ok := true;
      match ty
      case TBool => Bool(v.b);
      case TU16 => Put(v.n, 2);
      case TU32 => Put(v.n, 4);
      case TU64 => Put(v.n, 8);
      case TI32 => Put(ToWord(v.n), 4);
      case TStr =>
        ghost var b0 := buf;
        ok := Str(v.s);
        assert b0 + Le(|v.s| % W32, 4) + v.s == b0 + (Le(|v.s| % W32, 4) + v.s);
      case TList(item) =>
        ghost var b0 := buf;
        Put(|v.rows| % W32, 4);
        ok := List(item, v.rows);
        assert b0 + Le(|v.rows| % W32, 4) + EncodeRows(item, v.rows)
          == b0 + (Le(|v.rows| % W32, 4) + EncodeRows(item, v.rows));
    }

    /** The records of a list, one after the other. */
    method List(item: seq<Ty>, rows: seq<seq<Val>>) returns (ok: bool)
      requires forall i | 0 <= i < |rows| :: HasTypes(item, rows[i])
      modifies this
      ensures ok <==> forall i | 0 <= i < |rows| :: TextsFit(item, rows[i])
      ensures ok ==> buf == old(buf) + EncodeRows(item, rows)
      decreases item, 1
    {
      ok := true;
      for i := 0 to |rows|
        invariant ok && forall j | 0 <= j < i :: TextsFit(item, rows[j])
        invariant buf + EncodeRows(item, rows[i..]) == old(buf) + EncodeRows(item, rows)
      {
        ghost var before := buf;
        assert rows[i..][0] == rows[i] && rows[i..][1..] == rows[i + 1..];
        ok := Record(item, rows[i]);
        if !ok { return; }
        assert before + EncodeRows(item, rows[i..])
          == before + EncodeAll(item, rows[i]) + EncodeRows(item, rows[i + 1..]);
      }
      assert buf + [] == buf;
    }

    /** The fields of a record, in order. */
    method Record(tys: seq<Ty>, vs: seq<Val>) returns (ok: bool)
      requires HasTypes(tys, vs)
      modifies this
      ensures ok <==> TextsFit(tys, vs)
      ensures ok ==> buf == old(buf) + EncodeAll(tys, vs)
      decreases tys, 0
    {
      ok := true;
      if |tys| > 0 {
        ghost var b0 := buf;
        ok := One(tys[0], vs[0]);
        if ok {
          ok := Record(tys[1..], vs[1..]);
          assert b0 + EncodeOne(tys[0], vs[0]) + EncodeAll(tys[1..], vs[1..])
              == b0 + (EncodeOne(tys[0], vs[0]) + EncodeAll(tys[1..], vs[1..]));
        }
      }
    }
  }

  // ------------------------------------------------------------------- reader

  /** What a reader's answer and new position say about the specification. */
  ghost predicate Agrees<T>(p: Parse<T>, got: Option<T>, rest: seq<Byte>) {
    if p.Done? then got == Some(p.v) && rest == p.rest else got == None
  }

  class Reader {
    const data: seq<Byte>
    var p: nat

    ghost predicate Valid() reads this { p <= |data| }

    ghost function Rest(): seq<Byte> reads this requires Valid() { data[p..] }

    constructor (d: seq<Byte>)
      ensures Valid() && data == d && Rest() == d
    {
      data, p := d, 0;
    }

    method Bytes(n: nat) returns (got: Option<seq<Byte>>)
      requires Valid()
      modifies this
      ensures Valid() && Agrees(Take(old(Rest()), n), got, Rest())
    {
      if |data| - p < n { return None; }
      got := Some(data[p..p + n]);
      p := p + n;
      assert old(Rest())[..n] == got.value && old(Rest())[n..] == data[p..];
    }

    method Int(k: nat) returns (got: Option<nat>)
      requires Valid()
      modifies this
      ensures Valid() && Agrees(DecodeInt(old(Rest()), k), got, Rest())
    {
      var w := Bytes(k);
      if w.None? { return None; }
      var i := k;
      var n: nat := 0;
      while i > 0
        invariant 0 <= i <= k && n == UnLe(w.value[i..])
      {
        i := i - 1;
        assert w.value[i..][1..] == w.value[i + 1..];
        n := w.value[i] + 256 * n;
      }
      assert w.value[0..] == w.value;
      got := Some(n);
    }

    method Str() returns (got: Option<Val>)
      requires Valid()
      modifies this
      ensures Valid() && Agrees(DecodeText(old(Rest())), got, Rest())
    {
      var n := Int(4);
      if n.None? { return None; }
      var s := Bytes(n.value);
      if s.None? { return None; }
      got := Some(Text(s.value));
    }

    method Number(k: nat) returns (got: Option<Val>)
      requires Valid()
      modifies this
      ensures Valid() && Agrees(AsNum(DecodeInt(old(Rest()), k)), got, Rest())
    {
      var n := Int(k);
      got := if n.Some? then Some(Num(n.value)) else None;
    }

    method One(ty: Ty) returns (got: Option<Val>)
      requires Valid()
      modifies this
      ensures Valid() && Agrees(DecodeOne(ty, old(Rest())), got, Rest())
      decreases ty
    {
      match ty
      case TBool =>
        var b := Bytes(1);
        got := if b.Some? then Some(Flag(b.value[0] != 0)) else None;
      case TU16 => got := Number(2);
      case TU32 => got := Number(4);
      case TU64 => got := Number(8);
      case TI32 =>
        var w := Int(4);
        got := if w.Some? then Some(Num(FromWord(w.value))) else None;
      case TStr => got := Str();
      case TList(item) =>
        var n := Int(4);
        if n.None? { return None; }
        var rows := List(item, n.value);
        got := if rows.Some? then Some(Rows(rows.value)) else None;
    }

    /** `n` records, one after the other. */
    method List(item: seq<Ty>, n: nat) returns (got: Option<seq<seq<Val>>>)
      requires Valid()
      modifies this
      ensures Valid() && Agrees(DecodeRows(item, n, old(Rest())), got, Rest())
      decreases item, 1
    {
      var rows: seq<seq<Val>> := [];
      AfterNone(DecodeRows(item, n, Rest()));
      for i := 0 to n
        invariant Valid() && After(rows, DecodeRows(item, n - i, Rest())) == DecodeRows(item, n, old(Rest()))
      {
        ghost var s := Rest();
        var row := Record(item);
        if row.None? { return None; }
        AfterOne(item, n - i, s, rows);
        rows := rows + [row.value];
      }
      assert rows + [] == rows;
      got := Some(rows);
    }

    /** The fields of a record, in order. */
    method Record(tys: seq<Ty>) returns (got: Option<seq<Val>>)
      requires Valid()
      modifies this
      ensures Valid() && Agrees(DecodeAll(tys, old(Rest())), got, Rest())
      decreases tys, 0
    {
      if |tys| == 0 { return Some([]); }
      var v := One(tys[0]);
      if v.None? { return None; }
      var vs := Record(tys[1..]);
      got := if vs.Some? then Some([v.value] + vs.value) else None;
    }
  }

  /** The outcome of reading on after `rows`. */
  ghost function After(rows: seq<seq<Val>>, p: Parse<seq<seq<Val>>>): Parse<seq<seq<Val>>> {
    if p.Done? then Done(rows + p.v, p.rest) else Fail
  }

  lemma AfterNone(p: Parse<seq<seq<Val>>>)
    ensures After([], p) == p
  {
    if p.Done? {
      assert [] + p.v == p.v;
    }
  }

  lemma AfterOne(item: seq<Ty>, n: nat, s: seq<Byte>, rows: seq<seq<Val>>)
    requires n > 0 && DecodeAll(item, s).Done?
    ensures var row := DecodeAll(item, s);
      After(rows, DecodeRows(item, n, s)) == After(rows + [row.v], DecodeRows(item, n - 1, row.rest))
  {
    var row := DecodeAll(item, s);
    var more := DecodeRows(item, n - 1, row.rest);
    if more.Done? {
      assert rows + ([row.v] + more.v) == rows + [row.v] + more.v;
    }
  }

  // ------------------------------------------------------------ whole messages

  lemma {:induction false} CountedFits(ty: Ty, v: Val)
    requires HasType(ty, v) && Counted(ty, v)
    ensures TextFits(ty, v)
    decreases ty
  {
    match ty
    case TList(item) =>
      forall i | 0 <= i < |v.rows| ensures TextsFit(item, v.rows[i]) {
        CountedAllFit(item, v.rows[i]);
      }
    case _ =>
  }

  lemma {:induction false} CountedAllFit(tys: seq<Ty>, vs: seq<Val>)
    requires HasTypes(tys, vs) && CountedAll(tys, vs)
    ensures TextsFit(tys, vs)
    decreases tys
  {
    if tys != [] {
      CountedFits(tys[0], vs[0]);
      CountedAllFit(tys[1..], vs[1..]);
    }
  }

  /**
   Encode a message, then decode the bytes followed by `rest`. A string that is too long is refused by
   the writer; a list that is too long is not, and then the message that comes back is another one.
   */
  method Transfer(tys: seq<Ty>, vs: seq<Val>, rest: seq<Byte>) returns (sent: bool, got: Option<seq<Val>>)
    requires HasTypes(tys, vs)
    ensures sent <==> TextsFit(tys, vs)
    ensures sent ==> (got == Some(vs) <==> CountedAll(tys, vs))
    ensures CountedAll(tys, vs) ==> sent && got == Some(vs)
  {
    var w := new Writer();
    sent := w.Record(tys, vs);
    got := None;
    if CountedAll(tys, vs) { CountedAllFit(tys, vs); }
    if sent {
      var r := new Reader(w.buf + rest);
      got := r.Record(tys);
      assert [] + EncodeAll(tys, vs) == EncodeAll(tys, vs);
      AllBack(tys, vs, rest);
    }
  }
}
