/**
 Laws of the byte format, for every list of field types: decoding undoes
 encoding exactly when every count fits its word, decoders read on past any
 suffix, and no strict prefix of an encoding decodes.
 */
module WireLaws {
  import opened Bits
  import opened WireFormat

  // --------------------------------------------------------------- round trip

  /** The outcome is the value when `fits`, and never the value otherwise. */
  ghost predicate Returns<T>(p: Parse<T>, v: T, rest: seq<Byte>, fits: bool) {
    if fits then p == Done(v, rest) else p.Done? ==> p.v != v
  }

  lemma TakeAppend(a: seq<Byte>, rest: seq<Byte>)
    ensures Take(a + rest, |a|) == Done(a, rest)
  {
    assert (a + rest)[..|a|] == a && (a + rest)[|a|..] == rest;
  }

  lemma IntBack(n: nat, k: nat, rest: seq<Byte>)
    requires n < Pow256(k)
    ensures DecodeInt(Le(n, k) + rest, k) == Done(n, rest)
  {
    UnLeOfLe(n, k);
    TakeAppend(Le(n, k), rest);
  }

  lemma CountWord(n: nat)
    ensures n % W32 < W32 && (n < W32 <==> n % W32 == n)
  {
    if n < W32 {
      ModUnique(n, W32, 0, n);
    }
  }

  lemma CountedBack(s: seq<Byte>, n: nat, rest: seq<Byte>)
    requires n < W32 && n <= |s|
    ensures Returns(DecodeText(Le(n, 4) + s + rest), Text(s), rest, n == |s|)
  {
    Pow256Is();
    assert Le(n, 4) + s + rest == Le(n, 4) + (s + rest);
    IntBack(n, 4, s + rest);
    if n == |s| {
      TakeAppend(s, rest);
    }
  }

  lemma TextBack(s: seq<Byte>, rest: seq<Byte>)
    ensures Returns(DecodeText(Le(|s| % W32, 4) + s + rest), Text(s), rest, |s| < W32)
  {
    CountWord(|s|);
    CountedBack(s, |s| % W32, rest);
  }

  lemma {:induction false} RowsLength(item: seq<Ty>, n: nat, s: seq<Byte>)
    ensures DecodeRows(item, n, s).Done? ==> |DecodeRows(item, n, s).v| == n
    decreases n
  {
    if n > 0 && DecodeAll(item, s).Done? {
      RowsLength(item, n - 1, DecodeAll(item, s).rest);
    }
  }

  lemma {:induction false} OneBack(ty: Ty, v: Val, rest: seq<Byte>)
    requires HasType(ty, v)
    ensures Returns(DecodeOne(ty, EncodeOne(ty, v) + rest), v, rest, Counted(ty, v))
    decreases ty
  {
    Pow256Is();
    match ty
    case TBool =>
    case TU16 => IntBack(v.n, 2, rest);
    case TU32 => IntBack(v.n, 4, rest);
    case TU64 => IntBack(v.n, 8, rest);
    case TI32 => IntBack(ToWord(v.n), 4, rest);
    case TStr => TextBack(v.s, rest);
    case TList(item) => ListBack(item, v, rest);
  }

  lemma {:induction false} ListBack(item: seq<Ty>, v: Val, rest: seq<Byte>)
    requires HasType(TList(item), v)
    ensures Returns(DecodeOne(TList(item), EncodeOne(TList(item), v) + rest), v, rest, Counted(TList(item), v))
    decreases item, |v.rows| + 1
  {
    Pow256Is();
    var n, body := |v.rows| % W32, EncodeRows(item, v.rows);
    assert Le(n, 4) + body + rest == Le(n, 4) + (body + rest);
    IntBack(n, 4, body + rest);
    if |v.rows| < W32 {
      RowsBack(item, v.rows, rest);
    } else {
      RowsLength(item, n, body + rest);
    }
  }

  ghost predicate AllCounted(item: seq<Ty>, rows: seq<seq<Val>>)
    requires forall i | 0 <= i < |rows| :: HasTypes(item, rows[i])
  {
    forall i | 0 <= i < |rows| :: CountedAll(item, rows[i])
  }

  lemma {:induction false} RowsBack(item: seq<Ty>, rows: seq<seq<Val>>, rest: seq<Byte>)
    requires forall i | 0 <= i < |rows| :: HasTypes(item, rows[i])
    ensures Returns(DecodeRows(item, |rows|, EncodeRows(item, rows) + rest), rows, rest, AllCounted(item, rows))
    decreases item, |rows|
  {
    if rows != [] {
      var head, tail := EncodeAll(item, rows[0]), EncodeRows(item, rows[1..]);
      assert head + tail + rest == head + (tail + rest);
      AllBack(item, rows[0], tail + rest);
      RowsBack(item, rows[1..], rest);
      assert rows == [rows[0]] + rows[1..];
      assert AllCounted(item, rows) <==> CountedAll(item, rows[0]) && AllCounted(item, rows[1..]) by {
        assert forall i | 0 <= i < |rows[1..]| :: rows[1..][i] == rows[i + 1];
        assert forall i | 0 < i < |rows| :: rows[i] == rows[1..][i - 1];
      }
    }
  }

  /** A message comes back exactly when all its counts fit; whatever follows is left alone. */
  lemma {:induction false} AllBack(tys: seq<Ty>, vs: seq<Val>, rest: seq<Byte>)
    requires HasTypes(tys, vs)
    ensures Returns(DecodeAll(tys, EncodeAll(tys, vs) + rest), vs, rest, CountedAll(tys, vs))
    decreases tys, 0
  {
    if tys != [] {
      var head, tail := EncodeOne(tys[0], vs[0]), EncodeAll(tys[1..], vs[1..]);
      assert head + tail + rest == head + (tail + rest);
      OneBack(tys[0], vs[0], tail + rest);
      AllBack(tys[1..], vs[1..], rest);
      assert vs == [vs[0]] + vs[1..];
    }
  }

  /** Decoding an encoding gives the message if and only if its counts fit. */
  lemma RoundTripIff(tys: seq<Ty>, vs: seq<Val>, rest: seq<Byte>)
    requires HasTypes(tys, vs)
    ensures DecodeAll(tys, EncodeAll(tys, vs) + rest) == Done(vs, rest) <==> CountedAll(tys, vs)
  {
    AllBack(tys, vs, rest);
  }

  // ------------------------------------------------------------------ prefixes

  /** `p'` is `p` with `more` bytes left over. */
  ghost predicate Extends<T>(p: Parse<T>, p': Parse<T>, more: seq<Byte>) {
    p.Done? ==> p' == Done(p.v, p.rest + more)
  }

  lemma TakeExtends(s: seq<Byte>, n: nat, more: seq<Byte>)
    ensures Extends(Take(s, n), Take(s + more, n), more)
  {
    if n <= |s| {
      assert (s + more)[..n] == s[..n] && (s + more)[n..] == s[n..] + more;
    }
  }

  lemma IntExtends(s: seq<Byte>, k: nat, more: seq<Byte>)
    ensures Extends(DecodeInt(s, k), DecodeInt(s + more, k), more)
  {
    TakeExtends(s, k, more);
  }

  lemma TextExtends(s: seq<Byte>, more: seq<Byte>)
    ensures Extends(DecodeText(s), DecodeText(s + more), more)
  {
    IntExtends(s, 4, more);
    if DecodeInt(s, 4).Done? {
      TakeExtends(DecodeInt(s, 4).rest, DecodeInt(s, 4).v, more);
    }
  }

  lemma {:induction false} OneExtends(ty: Ty, s: seq<Byte>, more: seq<Byte>)
    ensures Extends(DecodeOne(ty, s), DecodeOne(ty, s + more), more)
    decreases ty
  {
    match ty
    case TBool =>
      if s != [] {
        assert (s + more)[1..] == s[1..] + more;
      }
    case TU16 => IntExtends(s, 2, more);
    case TU32 => IntExtends(s, 4, more);
    case TU64 => IntExtends(s, 8, more);
    case TI32 => IntExtends(s, 4, more);
    case TStr => TextExtends(s, more);
    case TList(item) =>
      IntExtends(s, 4, more);
      if DecodeInt(s, 4).Done? {
        RowsExtend(item, DecodeInt(s, 4).v, DecodeInt(s, 4).rest, more);
      }
  }

  lemma {:induction false} RowsExtend(item: seq<Ty>, n: nat, s: seq<Byte>, more: seq<Byte>)
    ensures Extends(DecodeRows(item, n, s), DecodeRows(item, n, s + more), more)
    decreases item, n
  {
    if n > 0 {
      AllExtend(item, s, more);
      if DecodeAll(item, s).Done? {
        RowsExtend(item, n - 1, DecodeAll(item, s).rest, more);
      }
    }
  }

  /** What decodes, decodes the same way with anything behind it. */
  lemma {:induction false} AllExtend(tys: seq<Ty>, s: seq<Byte>, more: seq<Byte>)
    ensures Extends(DecodeAll(tys, s), DecodeAll(tys, s + more), more)
    decreases tys, 0
  {
    if tys != [] {
      OneExtends(tys[0], s, more);
      if DecodeOne(tys[0], s).Done? {
        AllExtend(tys[1..], DecodeOne(tys[0], s).rest, more);
      }
    }
  }

  /** Every strict prefix of an encoding is rejected. */
  lemma PrefixRejected(tys: seq<Ty>, vs: seq<Val>, n: nat)
    requires HasTypes(tys, vs) && CountedAll(tys, vs) && n < |EncodeAll(tys, vs)|
    ensures DecodeAll(tys, EncodeAll(tys, vs)[..n]).Fail?
  {
    var e := EncodeAll(tys, vs);
    AllExtend(tys, e[..n], e[n..]);
    assert e[..n] + e[n..] == e && e + [] == e;
    AllBack(tys, vs, []);
  }

  /** Two messages never share an encoding. */
  lemma EncodingInjective(tys: seq<Ty>, a: seq<Val>, b: seq<Val>)
    requires HasTypes(tys, a) && HasTypes(tys, b) && CountedAll(tys, a) && CountedAll(tys, b)
    requires EncodeAll(tys, a) == EncodeAll(tys, b)
    ensures a == b
  {
    AllBack(tys, a, []);
    AllBack(tys, b, []);
  }

  // --------------------------------------------------------- arbitrary bytes

  /** What a decoder consumed has the length of the value's encoding. */
  ghost predicate Measured(s: seq<Byte>, rest: seq<Byte>, len: nat) {
    |s| == len + |rest| && s[len..] == rest
  }

  lemma IntMeasured(s: seq<Byte>, k: nat)
    requires DecodeInt(s, k).Done?
    ensures DecodeInt(s, k).v < Pow256(k) && Measured(s, DecodeInt(s, k).rest, k)
  {
    UnLeBound(s[..k]);
  }

  lemma {:induction false} OneMeasured(ty: Ty, s: seq<Byte>)
    requires DecodeOne(ty, s).Done?
    ensures var p := DecodeOne(ty, s);
      HasType(ty, p.v) && Counted(ty, p.v) && Measured(s, p.rest, |EncodeOne(ty, p.v)|)
    decreases ty
  {
    Pow256Is();
    match ty
    case TBool =>
    case TU16 => IntMeasured(s, 2);
    case TU32 => IntMeasured(s, 4);
    case TU64 => IntMeasured(s, 8);
    case TI32 => IntMeasured(s, 4);
    case TStr => IntMeasured(s, 4);
    case TList(item) =>
      IntMeasured(s, 4);
      RowsMeasured(item, DecodeInt(s, 4).v, DecodeInt(s, 4).rest);
  }

  ghost predicate AllTyped(item: seq<Ty>, rows: seq<seq<Val>>) {
    forall i | 0 <= i < |rows| :: HasTypes(item, rows[i])
  }

  lemma RowsCons(item: seq<Ty>, row: seq<Val>, rows: seq<seq<Val>>)
    requires HasTypes(item, row) && AllTyped(item, rows) && CountedAll(item, row) && AllCounted(item, rows)
    ensures AllTyped(item, [row] + rows) && AllCounted(item, [row] + rows)
    ensures EncodeRows(item, [row] + rows) == EncodeAll(item, row) + EncodeRows(item, rows)
  {
    assert ([row] + rows)[1..] == rows;
  }

  lemma {:induction false} RowsMeasured(item: seq<Ty>, n: nat, s: seq<Byte>)
    requires DecodeRows(item, n, s).Done?
    ensures var p := DecodeRows(item, n, s);
      |p.v| == n && AllTyped(item, p.v) && AllCounted(item, p.v) && Measured(s, p.rest, |EncodeRows(item, p.v)|)
    decreases item, n
  {
    if n > 0 {
      AllMeasured(item, s);
      var row := DecodeAll(item, s);
      RowsMeasured(item, n - 1, row.rest);
      RowsCons(item, row.v, DecodeRows(item, n - 1, row.rest).v);
    }
  }

  /** Any bytes that decode give a well-typed message whose encoding has the length that was read. */
  lemma {:induction false} AllMeasured(tys: seq<Ty>, s: seq<Byte>)
    requires DecodeAll(tys, s).Done?
    ensures var p := DecodeAll(tys, s);
      HasTypes(tys, p.v) && CountedAll(tys, p.v) && Measured(s, p.rest, |EncodeAll(tys, p.v)|)
    decreases tys, 0
  {
    if tys != [] {
      OneMeasured(tys[0], s);
      var one := DecodeOne(tys[0], s);
      AllMeasured(tys[1..], one.rest);
      var more := DecodeAll(tys[1..], one.rest);
      assert ([one.v] + more.v)[1..] == more.v;
    }
  }
}
