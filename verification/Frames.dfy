/** Length-prefixed framing: liandanlu_native/desktop_bridge.py:91-156. Payloads are the UTF-8 bytes of
    the JSON object. */
module Frames {
  newtype Byte = b: int | 0 <= b < 256

  const WORD: nat := 0x1_0000_0000

  /** struct.pack("!I", n). */
  function Header(n: nat): seq<Byte>
    requires n < WORD
  {
    [(n / 0x100_0000) as Byte, (n / 0x1_0000 % 256) as Byte, (n / 256 % 256) as Byte, (n % 256) as Byte]
  }

  function HeaderValue(h: seq<Byte>): nat
    requires |h| == 4
  {
    h[0] as int * 0x100_0000 + h[1] as int * 0x1_0000 + h[2] as int * 256 + h[3] as int
  }

  lemma HeaderRoundTrip(n: nat)
    requires n < WORD
    ensures HeaderValue(Header(n)) == n
  {
    var a, b, c := n / 256, n / 0x1_0000, n / 0x100_0000;
    assert a / 256 == b && b / 256 == c;
    assert n == a * 256 + n % 256 && a == b * 256 + a % 256 && b == c * 256 + b % 256;
  }

  /** The length is written in network order, most significant byte first. */
  lemma HeaderIsBigEndian(n: nat)
    requires n < 4294967296
    ensures var h := Header(n);
            |h| == 4 && h[0] as int * 16777216 + h[1] as int * 65536 + h[2] as int * 256 + h[3] as int == n
  {
    HeaderRoundTrip(n);
  }

  datatype Encoded = Frame(bytes: seq<Byte>) | Rejected

  function Encode(payload: seq<Byte>, maxBytes: int): Encoded {
    if payload == [] || |payload| > maxBytes || |payload| >= WORD then Rejected
    else Frame(Header(|payload|) + payload)
  }

  datatype Received = Payload(bytes: seq<Byte>) | ProtocolError | TransportError

  /** Exactly the empty, the too large for the limit and the too large for the header are rejected; a frame is the header
      and the payload as it is. */
  lemma EncodeRejectsIff(payload: seq<Byte>, maxBytes: int)
    ensures Encode(payload, maxBytes).Rejected? <==> |payload| == 0 || |payload| > maxBytes || |payload| >= 4294967296
    ensures Encode(payload, maxBytes).Frame? ==>
              var b := Encode(payload, maxBytes).bytes;
              && |b| == 4 + |payload| && b[4..] == payload
              && b[0] as int * 16777216 + b[1] as int * 65536 + b[2] as int * 256 + b[3] as int == |payload|
  {
    if Encode(payload, maxBytes).Frame? { HeaderIsBigEndian(|payload|); }
  }

  /** What receiving one frame from the front of a stream yields, and the bytes left over. */
  function Decode(stream: seq<Byte>, maxBytes: int): (Received, seq<Byte>) {
    if |stream| < 4 then (TransportError, []) else
      var n, rest := HeaderValue(stream[..4]), stream[4..];
      if n == 0 || n > maxBytes then (ProtocolError, rest)
      else if |rest| < n then (TransportError, [])
      else (Payload(rest[..n]), rest[n..])
  }

  /** When receiving fails: with a transport error exactly if the stream ends inside the header or the payload, and with a
      protocol error exactly if the announced length is zero or above the limit, of which only the header is consumed. */
  lemma DecodeFailsIff(stream: seq<Byte>, maxBytes: int)
    ensures Decode(stream, maxBytes).0.TransportError? <==>
              || |stream| < 4
              || (var n := stream[0] as int * 16777216 + stream[1] as int * 65536 + stream[2] as int * 256 + stream[3] as int;
                  0 < n && n <= maxBytes && |stream| < 4 + n)
    ensures Decode(stream, maxBytes).0.ProtocolError? <==>
              |stream| >= 4 && var n := stream[0] as int * 16777216 + stream[1] as int * 65536 + stream[2] as int * 256 + stream[3] as int;
                               n == 0 || n > maxBytes
    ensures Decode(stream, maxBytes).0.ProtocolError? ==> Decode(stream, maxBytes).1 == stream[4..]
  {
  }

  /** Decoding undoes encoding and stops at the frame boundary. */
  lemma DecodeUndoesEncode(payload: seq<Byte>, maxBytes: int, tail: seq<Byte>)
    requires Encode(payload, maxBytes).Frame?
    ensures Decode(Encode(payload, maxBytes).bytes + tail, maxBytes) == (Payload(payload), tail)
  {
    var header := Header(|payload|);
    var stream := Encode(payload, maxBytes).bytes + tail;
    HeaderRoundTrip(|payload|);
    assert stream[..4] == header && stream[4..] == payload + tail;
    assert (payload + tail)[..|payload|] == payload && (payload + tail)[|payload|..] == tail;
  }

  /** The reverse: a frame that is accepted is one that encoding its payload produces. */
  lemma EncodeUndoesDecode(stream: seq<Byte>, maxBytes: int)
    requires Decode(stream, maxBytes).0.Payload?
    ensures var (r, rest) := Decode(stream, maxBytes);
            Encode(r.bytes, maxBytes).Frame? && stream == Encode(r.bytes, maxBytes).bytes + rest
  {
    var h := stream[..4];
    var n := HeaderValue(h);
    HeaderOfValue(h);
    assert stream == h + (stream[4..][..n] + stream[4..][n..]);
  }

  lemma HeaderOfValue(h: seq<Byte>)
    requires |h| == 4
    ensures HeaderValue(h) < WORD && Header(HeaderValue(h)) == h
  {
    var a, b, c, d := h[0] as int, h[1] as int, h[2] as int, h[3] as int;
    var n := HeaderValue(h);
    assert n / 256 == a * 0x1_0000 + b * 256 + c && n % 256 == d;
    assert n / 0x1_0000 == a * 256 + b && n / 0x100_0000 == a;
  }

  function Concat(payloads: seq<seq<Byte>>): seq<Byte>
    requires forall i :: 0 <= i < |payloads| ==> 0 < |payloads[i]| < WORD
  {
    if payloads == [] then [] else Header(|payloads[0]|) + payloads[0] + Concat(payloads[1..])
  }

  // ---- The transport ----

  datatype Chunk = Data(bytes: seq<Byte>) | Closed | Failed

  /** A connection that will still deliver `stream`, cut into arbitrary non-empty pieces. When `reliable`
      is false a read may also time out or fail. */
  class Socket {
    const reliable: bool
    var stream: seq<Byte>

    constructor (reliable: bool, stream: seq<Byte>)
      ensures this.reliable == reliable && this.stream == stream
    {
      this.reliable, this.stream := reliable, stream;
    }

    method Read(n: nat) returns (c: Chunk)
      requires n > 0
      modifies this
      ensures c.Data? ==> 0 < |c.bytes| <= n && old(stream) == c.bytes + stream
      ensures !c.Data? ==> stream == old(stream)
      ensures c.Closed? ==> stream == []
      ensures reliable ==> !c.Failed?
    {
      if !reliable {
        if * { return Failed; }
      }
      if stream == [] { return Closed; }
      var k: nat :| 0 < k <= n && k <= |stream|;
      c := Data(stream[..k]);
      stream := stream[k..];
    }
  }

  datatype Exact = Bytes(bytes: seq<Byte>) | Broken

  method RecvExact(socket: Socket, count: nat) returns (r: Exact)
    modifies socket
    ensures r.Bytes? ==> |r.bytes| == count && old(socket.stream) == r.bytes + socket.stream
    ensures r.Broken? && socket.reliable ==> |old(socket.stream)| < count && socket.stream == []
  {
    var chunks := [];
    var remaining: nat := count;
    while remaining != 0
      invariant |chunks| + remaining == count
      invariant old(socket.stream) == chunks + socket.stream
      decreases remaining
    {
      var c := socket.Read(remaining);
      if !c.Data? { return Broken; }
      chunks := chunks + c.bytes;
      remaining := remaining - |c.bytes|;
    }
    return Bytes(chunks);
  }

  /** However the reads are cut, the outcome and the bytes left over are those of `Decode`; on an
      unreliable transport the call either agrees with `Decode` or reports a transport error. */
  method Recv(socket: Socket, maxBytes: int) returns (r: Received)
    modifies socket
    ensures (r, socket.stream) == Decode(old(socket.stream), maxBytes) || (r.TransportError? && !socket.reliable)
  {
    ghost var s := socket.stream;
    var header := RecvExact(socket, 4);
    if header.Broken? { return TransportError; }
    assert s[..4] == header.bytes && s[4..] == socket.stream;
    ghost var rest := socket.stream;
    var n := HeaderValue(header.bytes);
    if n <= 0 { return ProtocolError; }
    if n > maxBytes { return ProtocolError; }
    var payload := RecvExact(socket, n);
    if payload.Broken? { return TransportError; }
    assert rest[..n] == payload.bytes && rest[n..] == socket.stream;
    return Payload(payload.bytes);
  }

  /** Receiving as many frames as were sent returns exactly the payloads sent, in order, whatever the
      reads were cut into, and leaves whatever follows them untouched. */
  method RecvAll(socket: Socket, count: nat, maxBytes: int, ghost sent: seq<seq<Byte>>, ghost tail: seq<Byte>)
    returns (got: seq<seq<Byte>>)
    requires socket.reliable && count == |sent|
    requires forall i :: 0 <= i < |sent| ==> 0 < |sent[i]| < WORD && |sent[i]| <= maxBytes
    requires socket.stream == Concat(sent) + tail
    modifies socket
    ensures got == sent && socket.stream == tail
  {
    got := [];
    while |got| < count
      invariant |got| <= count && got == sent[..|got|]
      invariant socket.stream == Concat(sent[|got|..]) + tail
      decreases count - |got|
    {
      ghost var k := |got|;
      ConcatHead(sent[k..], tail, maxBytes);
      var r := Recv(socket, maxBytes);
      got := got + [r.bytes];
      assert sent[k..][1..] == sent[k + 1..];
    }
  }

  lemma ConcatHead(payloads: seq<seq<Byte>>, tail: seq<Byte>, maxBytes: int)
    requires payloads != []
    requires forall i :: 0 <= i < |payloads| ==> 0 < |payloads[i]| < WORD && |payloads[i]| <= maxBytes
    ensures Decode(Concat(payloads) + tail, maxBytes) == (Payload(payloads[0]), Concat(payloads[1..]) + tail)
  {
    var rest := Concat(payloads[1..]) + tail;
    assert Concat(payloads) + tail == Encode(payloads[0], maxBytes).bytes + rest;
    DecodeUndoesEncode(payloads[0], maxBytes, rest);
  }
}
