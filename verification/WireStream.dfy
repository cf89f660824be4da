/** Frames on a byte stream that arrives in pieces of any size. */
module WireStream {
  import opened Bits
  import opened WireFormat
  import opened WireMessages
  import WireLaws

  /** Opcode and payload of the next frame, and what follows it. */
  function ReadFrame(s: seq<Byte>): Parse<(U16, seq<Byte>)> {
    match ParseHeader(s[..if |s| < HEADER_SIZE then |s| else HEADER_SIZE])
    case Fail => Fail
    case Done(h, _) =>
      match Take(s[HEADER_SIZE..], h.length)
      case Fail => Fail
      case Done(body, rest) => Done((h.opcode, body), rest)
  }

  /** A frame is read back, and the stream is left at the next one. */
  lemma FrameRead(opcode: U16, flags: U16, body: seq<Byte>, rest: seq<Byte>)
    requires |body| < W32
    ensures MakeFrame(opcode, flags, body).Done?
    ensures ReadFrame(MakeFrame(opcode, flags, body).v + rest) == Done((opcode, body), rest)
  {
    var h := Header(opcode, flags, |body|);
    HeaderTyped(h);
    HeaderLength(h);
    CutAt(EncodeAll(HEADER, HeaderVals(h)), body, rest);
    HeaderParsed(h);
    WireLaws.TakeAppend(body, rest);
  }

  lemma CutAt(e: seq<Byte>, body: seq<Byte>, rest: seq<Byte>)
    ensures (e + body + rest)[..|e|] == e && (e + body + rest)[|e|..] == body + rest
  {
  }

  lemma HeaderParsed(h: Header)
    requires HasTypes(HEADER, HeaderVals(h))
    ensures ParseHeader(EncodeAll(HEADER, HeaderVals(h))) == Done(h, [])
  {
    HeaderTyped(h);
    HeaderLength(h);
    WireLaws.AllBack(HEADER, HeaderVals(h), []);
    assert EncodeAll(HEADER, HeaderVals(h)) + [] == EncodeAll(HEADER, HeaderVals(h));
  }

  // -------------------------------------------------------------------- socket

  /** What the peer has sent and will have sent before it closes. */
  class Socket {
    var data: seq<Byte>

    constructor (d: seq<Byte>)
      ensures data == d
    {
      data := d;
    }

    /** Some bytes, at most `n`; none only at the end. `want` is what happens to be there. */
    method Recv(n: nat, want: nat) returns (chunk: seq<Byte>)
      requires n > 0
      modifies this
      ensures old(data) == chunk + data && |chunk| <= n && (chunk == [] <==> old(data) == [])
    {
      var k := if want == 0 then 1 else if want < n then want else n;
      k := if k < |data| then k else |data|;
      chunk, data := data[..k], data[k..];
    }

    /** Exactly `n` bytes, or nothing when the stream ends first. `sizes` are the pieces in which they come. */
    method RecvExact(n: nat, sizes: seq<nat>) returns (ok: bool, buf: seq<Byte>)
      modifies this
      ensures ok <==> n <= |old(data)|
      ensures ok ==> |buf| == n && old(data) == buf + data
    {
      buf, ok := [], true;
      var i := 0;
      while |buf| < n
        invariant |buf| <= n && old(data) == buf + data
        decreases n - |buf|
      {
        var chunk := Recv(n - |buf|, if i < |sizes| then sizes[i] else 0);
        if chunk == [] {
          assert |old(data)| == |buf|;
          return false, buf;
        }
        assert buf + chunk + data == buf + (chunk + data);
        buf, i := buf + chunk, i + 1;
      }
    }

    /** The next frame, however the stream is cut into pieces. */
    method RecvFrame(sizes: seq<nat>, more: seq<nat>) returns (got: Parse<(U16, seq<Byte>)>)
      modifies this
      ensures got == ReadFrame(old(data))
      ensures got.Done? ==> data == got.rest
    {
      ghost var s := data;
      var ok, hdr := RecvExact(HEADER_SIZE, sizes);
      if !ok { return Fail; }
      assert s[..HEADER_SIZE] == hdr && s[HEADER_SIZE..] == data;
      var h := ParseHeader(hdr);
      if h.Fail? { return Fail; }
      ghost var t := data;
      var okBody, body := RecvExact(h.v.length, more);
      if !okBody { return Fail; }
      assert t[..h.v.length] == body && t[h.v.length..] == data;
      got := Done((h.v.opcode, body), data);
    }
  }
}
