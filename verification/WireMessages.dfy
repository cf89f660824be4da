/**
 Messages as records: their field lists, and the frame around them. The manifest
 reply is the largest one: a list of entries, each with a whole tensor key.
 */
module WireMessages {
  import opened Bits
  import opened WireFormat
  import opened WireLaws

  type Bytes = seq<Byte>

  datatype JobKey = JobKey(tenant: U64, job: U64, launch: U64, name: Bytes)

  datatype TensorKey = TensorKey(
    job: JobKey, role: U32, version: U64, param: U64, fqnHash: U64, fqnDebug: Bytes,
    dtype: U32, layout: U32, nbytes: U64, shapeHash: U64, strideHash: U64,
    pp: U32, tp: U32, ep: U32, etp: U32, expert: I32, shardOffset: U64, shardNbytes: U64)

  /** A coordinate that is absent still carries a number. */
  datatype Filter = Filter(
    hasPp: bool, pp: U32, hasTp: bool, tp: U32, hasEp: bool, ep: U32, hasEtp: bool, etp: U32,
    hasExpert: bool, expert: I32)

  datatype ManifestRequest = ManifestRequest(job: JobKey, role: U32, version: U64, filter: Filter)

  datatype Entry = Entry(key: TensorKey, objectId: U64, nbytes: U64, hashLo: U64, hashHi: U64, hint: Bytes)

  datatype ManifestResponse = ManifestResponse(
    ok: bool, message: Bytes, job: JobKey, role: U32, version: U64, state: U32, tensors: seq<Entry>)

  /** Counter names and values travel as pairs. */
  datatype StatsResponse = StatsResponse(ok: bool, message: Bytes, keys: seq<Bytes>, values: seq<U64>)

  // -------------------------------------------------------------- field lists

  const JOB: seq<Ty> := [TU64, TU64, TU64, TStr]
  const KEY_NAME: seq<Ty> := [TU32, TU64, TU64, TU64, TStr]
  const KEY_SHAPE: seq<Ty> := [TU32, TU32, TU64, TU64, TU64]
  const KEY_PLACE: seq<Ty> := [TU32, TU32, TU32, TU32, TI32, TU64, TU64]
  const KEY_TAIL: seq<Ty> := KEY_NAME + KEY_SHAPE + KEY_PLACE
  const RANKS: seq<Ty> := [TBool, TU32, TBool, TU32]
  const EXPERT: seq<Ty> := [TBool, TI32]
  const FILTER: seq<Ty> := RANKS + RANKS + EXPERT
  const VERSION: seq<Ty> := [TU32, TU64]
  const ENTRY: seq<Ty> := JOB + KEY_TAIL + [TU64, TU64, TU64, TU64, TStr]
  const MANIFEST_REQUEST: seq<Ty> := JOB + VERSION + FILTER
  const MANIFEST: seq<Ty> := [TBool, TStr] + JOB + [TU32, TU64, TU32, TList(ENTRY)]
  const STATS: seq<Ty> := [TBool, TStr, TList([TStr, TU64])]

  function JobVals(j: JobKey): seq<Val> { [Num(j.tenant), Num(j.job), Num(j.launch), Text(j.name)] }

  function NameVals(k: TensorKey): seq<Val> {
    [Num(k.role), Num(k.version), Num(k.param), Num(k.fqnHash), Text(k.fqnDebug)]
  }

  function ShapeVals(k: TensorKey): seq<Val> {
    [Num(k.dtype), Num(k.layout), Num(k.nbytes), Num(k.shapeHash), Num(k.strideHash)]
  }

  function PlaceVals(k: TensorKey): seq<Val> {
    [Num(k.pp), Num(k.tp), Num(k.ep), Num(k.etp), Num(k.expert), Num(k.shardOffset), Num(k.shardNbytes)]
  }

  function KeyTailVals(k: TensorKey): seq<Val> { NameVals(k) + ShapeVals(k) + PlaceVals(k) }

  function RankVals(hasA: bool, a: U32, hasB: bool, b: U32): seq<Val> { [Flag(hasA), Num(a), Flag(hasB), Num(b)] }

  function FilterVals(f: Filter): seq<Val> {
    RankVals(f.hasPp, f.pp, f.hasTp, f.tp) + RankVals(f.hasEp, f.ep, f.hasEtp, f.etp) + [Flag(f.hasExpert),
      Num(f.expert)]
  }

  function EntryVals(e: Entry): seq<Val> {
    JobVals(e.key.job) + KeyTailVals(e.key)
    + [Num(e.objectId), Num(e.nbytes), Num(e.hashLo), Num(e.hashHi), Text(e.hint)]
  }

  function EntriesVals(es: seq<Entry>): seq<seq<Val>> {
    seq(|es|, i requires 0 <= i < |es| => EntryVals(es[i]))
  }

  function RequestVals(m: ManifestRequest): seq<Val> {
    JobVals(m.job) + [Num(m.role), Num(m.version)] + FilterVals(m.filter)
  }

  function ManifestVals(m: ManifestResponse): seq<Val> {
    [Flag(m.ok), Text(m.message)] + JobVals(m.job)
    + [Num(m.role), Num(m.version), Num(m.state), Rows(EntriesVals(m.tensors))]
  }

  function StatsVals(m: StatsResponse): seq<Val>
    requires |m.keys| <= |m.values|
  {
    [Flag(m.ok), Text(m.message),
     Rows(seq(|m.keys|, i requires 0 <= i < |m.keys| => [Text(m.keys[i]), Num(m.values[i])]))]
  }

  // ------------------------------------------------------- back from the fields

  function At(vs: seq<Val>, i: nat): Val { if i < |vs| then vs[i] else Flag(false) }

  function AsBool(v: Val): bool { v.Flag? && v.b }

  function AsText(v: Val): Bytes { if v.Text? then v.s else [] }

  function AsRows(v: Val): seq<seq<Val>> { if v.Rows? then v.rows else [] }

  function AsU32(v: Val): U32 { if v.Num? && 0 <= v.n < W32 then v.n else 0 }

  function AsU64(v: Val): U64 { if v.Num? && 0 <= v.n < W64 then v.n else 0 }

  function AsI32(v: Val): I32 { if v.Num? && -0x8000_0000 <= v.n < 0x8000_0000 then v.n else 0 }

  function From(vs: seq<Val>, i: nat): seq<Val> { if i <= |vs| then vs[i..] else [] }

  function JobOf(vs: seq<Val>): JobKey {
    JobKey(AsU64(At(vs, 0)), AsU64(At(vs, 1)), AsU64(At(vs, 2)), AsText(At(vs, 3)))
  }

  function KeyOf(job: JobKey, t: seq<Val>): TensorKey {
    TensorKey(job, AsU32(At(t, 0)), AsU64(At(t, 1)), AsU64(At(t, 2)), AsU64(At(t, 3)), AsText(At(t, 4)),
              AsU32(At(t, 5)), AsU32(At(t, 6)), AsU64(At(t, 7)), AsU64(At(t, 8)), AsU64(At(t, 9)),
              AsU32(At(t, 10)), AsU32(At(t, 11)), AsU32(At(t, 12)), AsU32(At(t, 13)),
              AsI32(At(t, 14)), AsU64(At(t, 15)), AsU64(At(t, 16)))
  }

  function FilterOf(t: seq<Val>): Filter {
    Filter(AsBool(At(t, 0)), AsU32(At(t, 1)), AsBool(At(t, 2)), AsU32(At(t, 3)), AsBool(At(t, 4)), AsU32(At(t, 5)),
           AsBool(At(t, 6)), AsU32(At(t, 7)), AsBool(At(t, 8)), AsI32(At(t, 9)))
  }

  function EntryOf(vs: seq<Val>): Entry {
    var t := From(vs, 21);
    Entry(KeyOf(JobOf(vs), From(vs, 4)), AsU64(At(t, 0)), AsU64(At(t, 1)), AsU64(At(t, 2)), AsU64(At(t, 3)),
      AsText(At(t, 4)))
  }

  function RequestOf(vs: seq<Val>): ManifestRequest {
    ManifestRequest(JobOf(vs), AsU32(At(vs, 4)), AsU64(At(vs, 5)), FilterOf(From(vs, 6)))
  }

  function ManifestOf(vs: seq<Val>): ManifestResponse {
    var t, rows := From(vs, 6), AsRows(At(vs, 9));
    ManifestResponse(AsBool(At(vs, 0)), AsText(At(vs, 1)), JobOf(From(vs, 2)), AsU32(At(t, 0)), AsU64(At(t, 1)),
                     AsU32(At(t, 2)), seq(|rows|, i requires 0 <= i < |rows| => EntryOf(rows[i])))
  }

  function StatsOf(vs: seq<Val>): StatsResponse {
    var rows := AsRows(At(vs, 2));
    StatsResponse(AsBool(At(vs, 0)), AsText(At(vs, 1)),
                  seq(|rows|, i requires 0 <= i < |rows| => AsText(At(rows[i], 0))),
                  seq(|rows|, i requires 0 <= i < |rows| => AsU64(At(rows[i], 1))))
  }

  lemma EntryAgain(e: Entry)
    ensures EntryOf(EntryVals(e)) == e
  {
    var vs, tail := EntryVals(e), [Num(e.objectId), Num(e.nbytes), Num(e.hashLo), Num(e.hashHi), Text(e.hint)];
    assert vs[..4] == JobVals(e.key.job) && vs[4..] == KeyTailVals(e.key) + tail && vs[21..] == tail;
    assert JobOf(vs) == e.key.job;
    KeyAgain(e.key, tail);
  }

  lemma KeyAgain(k: TensorKey, more: seq<Val>)
    ensures KeyOf(k.job, KeyTailVals(k) + more) == k
  {
    var a, b, c := NameVals(k), ShapeVals(k), PlaceVals(k);
    var t := a + b + c + more;
    assert t[..5] == a && t[5..10] == b && t[10..17] == c;
  }

  lemma RequestAgain(m: ManifestRequest)
    ensures RequestOf(RequestVals(m)) == m
  {
    var vs := RequestVals(m);
    assert vs[6..] == FilterVals(m.filter);
  }

  lemma ManifestAgain(m: ManifestResponse)
    ensures ManifestOf(ManifestVals(m)) == m
  {
    var vs, rows := ManifestVals(m), EntriesVals(m.tensors);
    assert vs[9] == Rows(rows);
    forall i | 0 <= i < |rows| ensures EntryOf(rows[i]) == m.tensors[i] {
      EntryAgain(m.tensors[i]);
    }
    assert seq(|rows|, i requires 0 <= i < |rows| => EntryOf(rows[i])) == m.tensors;
  }

  // ------------------------------------------------------------------- typing

  lemma {:induction false} TypesByIndex(tys: seq<Ty>, vs: seq<Val>)
    requires |tys| == |vs| && forall i | 0 <= i < |tys| :: HasType(tys[i], vs[i])
    ensures HasTypes(tys, vs)
    ensures CountedAll(tys, vs) <==> forall i | 0 <= i < |tys| :: Counted(tys[i], vs[i])
    decreases |tys|
  {
    if tys != [] {
      TypesByIndex(tys[1..], vs[1..]);
      assert forall i | 0 < i < |tys| :: tys[i] == tys[1..][i - 1] && vs[i] == vs[1..][i - 1];
    }
  }

  /** Well typed, and with counts that fit exactly when `fits`. */
  ghost predicate Typed(tys: seq<Ty>, vs: seq<Val>, fits: bool) {
    HasTypes(tys, vs) && (CountedAll(tys, vs) <==> fits)
  }

  lemma {:induction false} TypedAppend(a: seq<Ty>, va: seq<Val>, fitsA: bool, b: seq<Ty>, vb: seq<Val>, fitsB: bool)
    requires Typed(a, va, fitsA) && Typed(b, vb, fitsB)
    ensures Typed(a + b, va + vb, fitsA && fitsB)
    decreases |a|
  {
    if a == [] {
      assert a + b == b && va + vb == vb;
    } else {
      assert (a + b)[1..] == a[1..] + b && (va + vb)[1..] == va[1..] + vb;
      TypedAppend(a[1..], va[1..], CountedAll(a[1..], va[1..]), b, vb, fitsB);
    }
  }

  lemma JobTyped(j: JobKey)
    ensures Typed(JOB, JobVals(j), |j.name| < W32)
  {
    TypesByIndex(JOB, JobVals(j));
    assert Counted(JOB[3], JobVals(j)[3]) <==> |j.name| < W32;
  }

  lemma NameTyped(k: TensorKey)
    ensures Typed(KEY_NAME, NameVals(k), |k.fqnDebug| < W32)
  {
    TypesByIndex(KEY_NAME, NameVals(k));
    assert Counted(KEY_NAME[4], NameVals(k)[4]) <==> |k.fqnDebug| < W32;
  }

  lemma ShapeTyped(k: TensorKey)
    ensures Typed(KEY_SHAPE, ShapeVals(k), true)
  {
    TypesByIndex(KEY_SHAPE, ShapeVals(k));
  }

  lemma PlaceTyped(k: TensorKey)
    ensures Typed(KEY_PLACE, PlaceVals(k), true)
  {
    TypesByIndex(KEY_PLACE, PlaceVals(k));
  }

  lemma RanksTyped(hasA: bool, a: U32, hasB: bool, b: U32)
    ensures Typed(RANKS, RankVals(hasA, a, hasB, b), true)
  {
    TypesByIndex(RANKS, RankVals(hasA, a, hasB, b));
  }

  lemma FilterTyped(f: Filter)
    ensures Typed(FILTER, FilterVals(f), true)
  {
    var a, b := RankVals(f.hasPp, f.pp, f.hasTp, f.tp), RankVals(f.hasEp, f.ep, f.hasEtp, f.etp);
    RanksTyped(f.hasPp, f.pp, f.hasTp, f.tp);
    RanksTyped(f.hasEp, f.ep, f.hasEtp, f.etp);
    TypesByIndex(EXPERT, [Flag(f.hasExpert), Num(f.expert)]);
    TypedAppend(RANKS, a, true, RANKS, b, true);
    TypedAppend(RANKS + RANKS, a + b, true, EXPERT, [Flag(f.hasExpert), Num(f.expert)], true);
  }

  lemma VersionTyped(role: U32, version: U64)
    ensures Typed(VERSION, [Num(role), Num(version)], true)
  {
    TypesByIndex(VERSION, [Num(role), Num(version)]);
  }

  lemma KeyTailTyped(k: TensorKey)
    ensures Typed(KEY_TAIL, KeyTailVals(k), |k.fqnDebug| < W32)
  {
    NameTyped(k);
    ShapeTyped(k);
    PlaceTyped(k);
    TypedAppend(KEY_NAME, NameVals(k), |k.fqnDebug| < W32, KEY_SHAPE, ShapeVals(k), true);
    TypedAppend(KEY_NAME + KEY_SHAPE, NameVals(k) + ShapeVals(k), |k.fqnDebug| < W32, KEY_PLACE, PlaceVals(k), true);
  }

  predicate EntryFits(e: Entry) {
    |e.key.job.name| < W32 && |e.key.fqnDebug| < W32 && |e.hint| < W32
  }

  lemma EntryTyped(e: Entry)
    ensures Typed(ENTRY, EntryVals(e), EntryFits(e))
  {
    var tail, vs := [TU64, TU64, TU64, TU64, TStr], [Num(e.objectId), Num(e.nbytes), Num(e.hashLo), Num(e.hashHi),
      Text(e.hint)];
    TypesByIndex(tail, vs);
    assert Counted(tail[4], vs[4]) <==> |e.hint| < W32;
    JobTyped(e.key.job);
    KeyTailTyped(e.key);
    TypedAppend(JOB, JobVals(e.key.job), |e.key.job.name| < W32, KEY_TAIL, KeyTailVals(e.key), |e.key.fqnDebug| < W32);
    TypedAppend(JOB + KEY_TAIL, JobVals(e.key.job) + KeyTailVals(e.key), |e.key.job.name| < W32
      && |e.key.fqnDebug| < W32,
                tail, vs, |e.hint| < W32);
  }

  lemma RequestTyped(m: ManifestRequest)
    ensures Typed(MANIFEST_REQUEST, RequestVals(m), |m.job.name| < W32)
  {
    var vs := [Num(m.role), Num(m.version)];
    VersionTyped(m.role, m.version);
    FilterTyped(m.filter);
    JobTyped(m.job);
    TypedAppend(JOB, JobVals(m.job), |m.job.name| < W32, VERSION, vs, true);
    TypedAppend(JOB + VERSION, JobVals(m.job) + vs, |m.job.name| < W32, FILTER, FilterVals(m.filter), true);
  }

  predicate ManifestFits(m: ManifestResponse) {
    && |m.message| < W32 && |m.job.name| < W32 && |m.tensors| < W32
    && forall i | 0 <= i < |m.tensors| :: EntryFits(m.tensors[i])
  }

  lemma EntriesTyped(es: seq<Entry>)
    ensures HasType(TList(ENTRY), Rows(EntriesVals(es)))
    ensures Counted(TList(ENTRY), Rows(EntriesVals(es))) <==> |es| < W32 && forall i | 0 <= i < |es| :: EntryFits(es[i])
  {
    var rows := EntriesVals(es);
    forall i | 0 <= i < |es| ensures Typed(ENTRY, rows[i], EntryFits(es[i])) {
      EntryTyped(es[i]);
    }
    assert forall i | 0 <= i < |es| :: Typed(ENTRY, rows[i], EntryFits(es[i]));
  }

  lemma ManifestTyped(m: ManifestResponse)
    ensures Typed(MANIFEST, ManifestVals(m), ManifestFits(m))
  {
    var head, hs := [TBool, TStr], [Flag(m.ok), Text(m.message)];
    TypesByIndex(head, hs);
    assert Counted(head[1], hs[1]) <==> |m.message| < W32;
    var tail, ts := [TU32, TU64, TU32, TList(ENTRY)], [Num(m.role), Num(m.version), Num(m.state),
      Rows(EntriesVals(m.tensors))];
    EntriesTyped(m.tensors);
    TypesByIndex(tail, ts);
    var fits := |m.tensors| < W32 && forall i | 0 <= i < |m.tensors| :: EntryFits(m.tensors[i]);
    assert Counted(tail[3], ts[3]) <==> fits;
    JobTyped(m.job);
    TypedAppend(head, hs, |m.message| < W32, JOB, JobVals(m.job), |m.job.name| < W32);
    TypedAppend(head + JOB, hs + JobVals(m.job), |m.message| < W32 && |m.job.name| < W32, tail, ts, fits);
  }

  // ------------------------------------------------------------------ theorems

  /** The manifest reply comes back, with every entry and every key field, whatever follows it. */
  lemma ManifestBack(m: ManifestResponse, rest: seq<Byte>)
    requires ManifestFits(m)
    ensures Typed(MANIFEST, ManifestVals(m), true)
    ensures var p := DecodeAll(MANIFEST, EncodeAll(MANIFEST, ManifestVals(m)) + rest);
      p.Done? && ManifestOf(p.v) == m && p.rest == rest
  {
    ManifestTyped(m);
    AllBack(MANIFEST, ManifestVals(m), rest);
    ManifestAgain(m);
  }

  /** A cut-off manifest reply is refused wherever it is cut. */
  lemma ManifestPrefix(m: ManifestResponse, n: nat)
    requires ManifestFits(m) && HasTypes(MANIFEST, ManifestVals(m)) && n < |EncodeAll(MANIFEST, ManifestVals(m))|
    ensures DecodeAll(MANIFEST, EncodeAll(MANIFEST, ManifestVals(m))[..n]).Fail?
  {
    ManifestTyped(m);
    PrefixRejected(MANIFEST, ManifestVals(m), n);
  }

  lemma StatsTyped(m: StatsResponse)
    requires |m.keys| <= |m.values| && |m.message| < W32 && |m.keys| < W32
      && forall i | 0 <= i < |m.keys| :: |m.keys[i]| < W32
    ensures Typed(STATS, StatsVals(m), true)
  {
    var vs := StatsVals(m);
    var rows := vs[2].rows;
    forall i | 0 <= i < |rows| ensures Typed([TStr, TU64], rows[i], true) {
      TypesByIndex([TStr, TU64], rows[i]);
    }
    assert forall i | 0 <= i < |rows| :: Typed([TStr, TU64], rows[i], true);
    TypesByIndex(STATS, vs);
  }

  /** The counter names decide how many pairs travel: the reply comes back exactly when no value is left over. */
  lemma StatsBackIff(m: StatsResponse, rest: seq<Byte>)
    requires |m.keys| <= |m.values| && |m.message| < W32 && |m.keys| < W32
      && forall i | 0 <= i < |m.keys| :: |m.keys[i]| < W32
    ensures Typed(STATS, StatsVals(m), true)
    ensures var p := DecodeAll(STATS, EncodeAll(STATS, StatsVals(m)) + rest);
      && p.Done? && p.rest == rest && StatsOf(p.v) == m.(values := m.values[..|m.keys|])
      && (StatsOf(p.v) == m <==> |m.keys| == |m.values|)
  {
    StatsTyped(m);
    AllBack(STATS, StatsVals(m), rest);
    var got := StatsOf(StatsVals(m));
    assert got.keys == m.keys && got.values == m.values[..|m.keys|];
    assert |m.keys| == |m.values| ==> m.values[..|m.keys|] == m.values;
  }

  // -------------------------------------------------------------------- frames

  const MAGIC: nat := 0x4F46_5250
  const HEADER_SIZE: nat := 12
  const HEADER: seq<Ty> := [TU32, TU16, TU16, TU32]

  datatype Header = Header(opcode: U16, flags: U16, length: U32)

  function HeaderVals(h: Header): seq<Val> { [Num(MAGIC), Num(h.opcode), Num(h.flags), Num(h.length)] }

  lemma HeaderTyped(h: Header)
    ensures Typed(HEADER, HeaderVals(h), true)
  {
    TypesByIndex(HEADER, HeaderVals(h));
  }

  /** Header and body; a body of 2^32 bytes or more is refused. */
  ghost function MakeFrame(opcode: U16, flags: U16, body: seq<Byte>): Parse<seq<Byte>> {
    if |body| >= W32 then Fail
    else
      HeaderTyped(Header(opcode, flags, |body|));
      Done(EncodeAll(HEADER, HeaderVals(Header(opcode, flags, |body|))) + body, [])
  }

  function AsU16(v: Val): U16 { if v.Num? && 0 <= v.n < 65536 then v.n else 0 }

  /** Short headers and other magic numbers are refused. */
  function ParseHeader(s: seq<Byte>): Parse<Header> {
    if |s| < HEADER_SIZE then Fail
    else
      match DecodeAll(HEADER, s)
      case Fail => Fail
      case Done(vs, rest) =>
        if At(vs, 0) != Num(MAGIC) then Fail
        else Done(Header(AsU16(At(vs, 1)), AsU16(At(vs, 2)), AsU32(At(vs, 3))), rest)
  }

  /** A frame's header is twelve bytes and says what the frame holds; the body follows it. */
  lemma FrameBack(opcode: U16, flags: U16, body: seq<Byte>, rest: seq<Byte>)
    requires |body| < W32
    ensures MakeFrame(opcode, flags, body).Done? && |MakeFrame(opcode, flags, body).v| == HEADER_SIZE + |body|
    ensures ParseHeader(MakeFrame(opcode, flags, body).v + rest) == Done(Header(opcode, flags, |body|), body + rest)
  {
    var h := Header(opcode, flags, |body|);
    HeaderTyped(h);
    var e := EncodeAll(HEADER, HeaderVals(h));
    AllBack(HEADER, HeaderVals(h), body + rest);
    HeaderLength(h);
    assert e + body + rest == e + (body + rest);
  }

  lemma HeaderLength(h: Header)
    requires HasTypes(HEADER, HeaderVals(h))
    ensures |EncodeAll(HEADER, HeaderVals(h))| == HEADER_SIZE
  {
    var t, v := HEADER, HeaderVals(h);
    assert t[1..] == [TU16, TU16, TU32] && v[1..] == [Num(h.opcode), Num(h.flags), Num(h.length)];
    assert t[1..][1..] == [TU16, TU32] && v[1..][1..] == [Num(h.flags), Num(h.length)];
    assert t[1..][1..][1..] == [TU32] && v[1..][1..][1..] == [Num(h.length)];
    assert |EncodeAll([TU32], [Num(h.length)])| == 4;
    assert |EncodeAll([TU16, TU32], [Num(h.flags), Num(h.length)])| == 6;
    assert |EncodeAll([TU16, TU16, TU32], [Num(h.opcode), Num(h.flags), Num(h.length)])| == 8;
  }
}
