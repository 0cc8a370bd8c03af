/** Length-prefixed framing of packets over a stream socket
    (`send_packet` and `receive_packet`).

    A frame is a 4-byte big-endian length followed by that many body bytes;
    the body is the msgpack encoding of `{"type": cmd, "data": data}`,
    Fernet-encrypted when the caller asks for it. msgpack and Fernet are
    foreign libraries: they enter the model as a `Codec` and a `Cipher`
    value holding their functions, and the only thing assumed about them is
    stated as a precondition where it is used (`Lossless`, `Authentic`). */
module Protocol {
  import opened Values

  /** Size of the header holding the body length. */
  const HEADER_LENGTH := 4
  /** Largest single `recv` the body loop issues. */
  const BUFFER_SIZE := 4096
  /** `struct.pack(">I", n)` accepts exactly 0 <= n < 2^32. */
  const LENGTH_LIMIT := 0x1_0000_0000

  const CMD_LOGIN := "LOGIN"
  const CMD_MSG := "MSG"
  const CMD_FILE := "FILE"
  const CMD_VIDEO := "VIDEO_FRAME"
  const CMD_AUDIO := "AUDIO_CHUNK"
  const CMD_LIST_UPDATE := "LIST"
  const CMD_END_CALL := "END_CALL"

  // ---------------------------------------------------------------------
  // The length header

  /** Big-endian reading of a 4-byte header, `struct.unpack(">I", h)[0]`. */
  function DecodeLength(h: Bytes): (n: nat)
    requires |h| == HEADER_LENGTH
    ensures n < LENGTH_LIMIT
  {
    var b0: int, b1: int, b2: int, b3: int := h[0], h[1], h[2], h[3];
    ((b0 * 0x100 + b1) * 0x100 + b2) * 0x100 + b3
  }

  /** `struct.pack(">I", n)`: the four big-endian bytes of `n`. */
  function EncodeLength(n: nat): (h: Bytes)
    requires n < LENGTH_LIMIT
    ensures |h| == HEADER_LENGTH
    ensures DecodeLength(h) == n
  {
    var q1 := n / 0x100;
    var q2 := q1 / 0x100;
    assert q2 < 0x1_0000;
    [q2 / 0x100, q2 % 0x100, q1 % 0x100, n % 0x100]
  }

  /** Every 4-byte header is the encoding of the length it decodes to, so
      header encoding is a bijection between [0, 2^32) and 4-byte strings. */
  lemma DecodeThenEncode(h: Bytes)
    requires |h| == HEADER_LENGTH
    ensures EncodeLength(DecodeLength(h)) == h
  {
    var n := DecodeLength(h);
    var b0: int, b1: int, b2: int, b3: int := h[0], h[1], h[2], h[3];
    var q1 := (b0 * 0x100 + b1) * 0x100 + b2;
    var q2 := b0 * 0x100 + b1;
    assert n / 0x100 == q1 && n % 0x100 == h[3];
    assert q1 / 0x100 == q2 && q1 % 0x100 == h[2];
    assert q2 / 0x100 == h[0] && q2 % 0x100 == h[1];
  }

  // ---------------------------------------------------------------------
  // The foreign encoders

  /** msgpack: `packb` and `unpackb`. `pack` yields `None` where `packb`
      raises (an integer outside msgpack's 64-bit range, say), `unpack`
      where `unpackb` raises (malformed or trailing bytes). */
  datatype Codec = Codec(pack: Value -> Option<Bytes>, unpack: Bytes -> Option<Value>)

  /** Fernet under the fixed key: `decrypt` yields `None` where
      `Fernet.decrypt` raises `InvalidToken`. */
  datatype Cipher = Cipher(encrypt: Bytes -> Bytes, decrypt: Bytes -> Option<Bytes>)

  /** msgpack decodes whatever it managed to encode. */
  ghost predicate Lossless(codec: Codec) {
    forall v :: codec.pack(v).Some? ==> codec.unpack(codec.pack(v).value) == Some(v)
  }

  /** Fernet decrypts whatever it encrypted under the same key. */
  ghost predicate Authentic(cipher: Cipher) {
    forall b :: cipher.decrypt(cipher.encrypt(b)) == Some(b)
  }

  // ---------------------------------------------------------------------
  // Frames

  /** The map `send_packet` packs: `{"type": cmd_type, "data": data_dict}`.
      It is a non-empty dict, so it is never mistaken for a disconnect. */
  function Payload(cmd: Value, data: Value): (p: Value)
    ensures p.VMap? && p.entries.Keys == {"type", "data"} && Truthy(p)
    ensures Index(p, "type") == Some(cmd) && Index(p, "data") == Some(data)
  {
    VMap(map["type" := cmd, "data" := data])
  }

  /** The bytes that follow the header, or `None` when `packb` raises;
      encryption itself cannot fail. */
  function Body(codec: Codec, cipher: Cipher, cmd: Value, data: Value, encrypted: bool): (b: Option<Bytes>)
    ensures b.Some? <==> codec.pack(Payload(cmd, data)).Some?
    ensures b.Some? && !encrypted ==> b == codec.pack(Payload(cmd, data))
    ensures b.Some? && encrypted ==> b == Some(cipher.encrypt(codec.pack(Payload(cmd, data)).value))
  {
    match codec.pack(Payload(cmd, data))
    case None => None
    case Some(packed) => Some(if encrypted then cipher.encrypt(packed) else packed)
  }

  /** Inverse of `Body` on the receiving side: decrypt if asked, then
      unpack; `None` wherever `receive_packet` would catch an exception. */
  function Open(codec: Codec, cipher: Cipher, body: Bytes, encrypted: bool): (r: Option<Value>)
    ensures !encrypted ==> r == codec.unpack(body)
    ensures encrypted && cipher.decrypt(body).None? ==> r.None?
    ensures encrypted && cipher.decrypt(body).Some? ==> r == codec.unpack(cipher.decrypt(body).value)
  {
    if encrypted then
      match cipher.decrypt(body)
      case None => None
      case Some(plain) => codec.unpack(plain)
    else codec.unpack(body)
  }

  /** Opening a body recovers the packet it was built from. */
  lemma OpenBody(codec: Codec, cipher: Cipher, cmd: Value, data: Value, encrypted: bool)
    requires Lossless(codec) && Authentic(cipher)
    requires Body(codec, cipher, cmd, data, encrypted).Some?
    ensures Open(codec, cipher, Body(codec, cipher, cmd, data, encrypted).value, encrypted)
            == Some(Payload(cmd, data))
  {
    var packed := codec.pack(Payload(cmd, data)).value;
    assert codec.unpack(packed) == Some(Payload(cmd, data));
    if encrypted {
      assert cipher.decrypt(cipher.encrypt(packed)) == Some(packed);
    }
  }

  /** The bytes `send_packet` hands to `sendall`, or `None` when `packb`
      raises or the body is too long for `struct.pack(">I", ...)`. */
  function Frame(codec: Codec, cipher: Cipher, cmd: Value, data: Value, encrypted: bool): (f: Option<Bytes>)
    ensures var body := Body(codec, cipher, cmd, data, encrypted);
            && (f.Some? <==> body.Some? && |body.value| < LENGTH_LIMIT)
            && (f.Some? ==> |f.value| == HEADER_LENGTH + |body.value|
                            && DecodeLength(f.value[..HEADER_LENGTH]) == |body.value|
                            && f.value[HEADER_LENGTH..] == body.value)
  {
    match Body(codec, cipher, cmd, data, encrypted)
    case None => None
    case Some(body) =>
      if |body| < LENGTH_LIMIT then
        var header := EncodeLength(|body|);
        assert (header + body)[..HEADER_LENGTH] == header;
        Some(header + body)
      else None
  }

  /** What one `receive_packet` call makes of the bytes the peer has sent:
      the packet (or `None`) and how many bytes it took off the stream. */
  datatype Received = Received(packet: Option<Value>, consumed: nat)

  /** The outcome of `receive_packet` on an open socket whose pending
      bytes are `stream`, where the end of `stream` is the peer's EOF. */
  function ReceiveSpec(codec: Codec, cipher: Cipher, stream: Bytes, encrypted: bool): (rx: Received)
    ensures rx.consumed <= |stream|
    ensures rx.packet.Some? ==> HEADER_LENGTH <= rx.consumed
    ensures rx.packet.None? && rx.consumed < |stream| ==>
              HEADER_LENGTH <= rx.consumed
              && rx.consumed == HEADER_LENGTH + DecodeLength(stream[..HEADER_LENGTH])
  {
    if |stream| < HEADER_LENGTH then Received(None, |stream|)
    else
      var n := DecodeLength(stream[..HEADER_LENGTH]);
      if |stream| - HEADER_LENGTH < n then Received(None, |stream|)
      else Received(Open(codec, cipher, stream[HEADER_LENGTH..HEADER_LENGTH + n], encrypted), HEADER_LENGTH + n)
  }

  /** A frame followed by anything yields exactly its packet and leaves
      the following bytes on the stream. */
  lemma ReceiveFrame(codec: Codec, cipher: Cipher, cmd: Value, data: Value, encrypted: bool, rest: Bytes)
    requires Lossless(codec) && Authentic(cipher)
    requires Frame(codec, cipher, cmd, data, encrypted).Some?
    ensures var f := Frame(codec, cipher, cmd, data, encrypted).value;
            ReceiveSpec(codec, cipher, f + rest, encrypted) == Received(Some(Payload(cmd, data)), |f|)
  {
    var f := Frame(codec, cipher, cmd, data, encrypted).value;
    var body := Body(codec, cipher, cmd, data, encrypted).value;
    var s := f + rest;
    assert s[..HEADER_LENGTH] == f[..HEADER_LENGTH];
    assert s[HEADER_LENGTH..HEADER_LENGTH + |body|] == body;
    OpenBody(codec, cipher, cmd, data, encrypted);
  }

  /** A peer that closes before a whole frame has arrived yields `None`,
      and the reader has taken everything that did arrive. */
  lemma ReceiveTruncated(codec: Codec, cipher: Cipher, cmd: Value, data: Value, encrypted: bool, k: nat)
    requires Frame(codec, cipher, cmd, data, encrypted).Some?
    requires k < |Frame(codec, cipher, cmd, data, encrypted).value|
    ensures var f := Frame(codec, cipher, cmd, data, encrypted).value;
            ReceiveSpec(codec, cipher, f[..k], encrypted) == Received(None, k)
  {
    var f := Frame(codec, cipher, cmd, data, encrypted).value;
    if HEADER_LENGTH <= k {
      assert f[..k][..HEADER_LENGTH] == f[..HEADER_LENGTH];
    }
  }

  // ---------------------------------------------------------------------
  // The socket

  /** The part of a TCP socket the framing code touches. Bytes from the
      peer wait in `inbox` in the chunks the network delivered them in;
      an empty inbox is the peer's EOF. */
  class Socket {
    /** `fileno() == -1`: the socket has been closed locally. */
    var closed: bool
    /** Chunks delivered by the peer and not yet read. */
    var inbox: seq<Bytes>
    /** Everything handed to `sendall`, in order. */
    var sent: Bytes
    /** The size argument of every `recv` call, in order. */
    var requests: seq<nat>
    /** The connection has failed for sending (peer reset, broken pipe):
        `sendall` raises. */
    var broken: bool

    /** TCP never delivers an empty chunk; `recv` returns `b""` only at EOF. */
    ghost predicate Valid()
      reads this
    {
      forall i :: 0 <= i < |inbox| ==> inbox[i] != []
    }

    /** The bytes still to be read, regardless of chunking. */
    ghost function Pending(): Bytes
      reads this
    {
      Concat(inbox)
    }

    constructor (incoming: seq<Bytes>)
      requires forall i :: 0 <= i < |incoming| ==> incoming[i] != []
      ensures Valid()
      ensures !closed && !broken && inbox == incoming && sent == [] && requests == []
    {
      closed := false;
      broken := false;
      inbox := incoming;
      sent := [];
      requests := [];
    }

    /** `recv(n)`: at most `n` bytes from the front of the first pending
        chunk; `b""` at EOF, on a closed socket and for `n == 0`. */
    method Recv(n: nat) returns (chunk: Bytes)
      requires Valid()
      modifies this
      ensures Valid()
      ensures requests == old(requests) + [n]
      ensures closed == old(closed) && sent == old(sent) && broken == old(broken)
      ensures |chunk| <= n
      ensures chunk == [] <==> (n == 0 || old(inbox) == [] || closed)
      ensures chunk == [] ==> inbox == old(inbox)
      ensures old(Pending()) == chunk + Pending()
    {
      requests := requests + [n];
      if closed || inbox == [] || n == 0 {
        chunk := [];
        return;
      }
      var head := inbox[0];
      if n < |head| {
        chunk := head[..n];
        assert head == chunk + head[n..];
        inbox := [head[n..]] + inbox[1..];
        assert inbox[1..] == old(inbox)[1..];
      } else {
        chunk := head;
        inbox := inbox[1..];
      }
    }

    /** `sendall(data)` on an open socket. On a broken connection it
        raises (`ok` false) after writing some unknown prefix of `data`. */
    method SendAll(data: Bytes) returns (ok: bool)
      modifies this
      ensures ok <==> !broken
      ensures ok ==> sent == old(sent) + data
      ensures !ok ==> exists k :: 0 <= k <= |data| && sent == old(sent) + data[..k]
      ensures closed == old(closed) && broken == old(broken)
      ensures inbox == old(inbox) && requests == old(requests)
    {
      if broken {
        var k :| 0 <= k <= |data|;
        sent := sent + data[..k];
        return false;
      }
      sent := sent + data;
      return true;
    }

    /** The peer resets the connection: every later `sendall` raises. */
    method Break()
      modifies this
      ensures broken
      ensures closed == old(closed) && inbox == old(inbox) && sent == old(sent) && requests == old(requests)
    {
      broken := true;
    }

    /** `close()`: from now on `fileno()` is -1. */
    method Close()
      modifies this
      ensures closed
      ensures broken == old(broken)
      ensures inbox == old(inbox) && sent == old(sent) && requests == old(requests)
    {
      closed := true;
    }
  }

  // ---------------------------------------------------------------------
  // send_packet and receive_packet

  /** `send_packet`: writes one frame and reports success, never raising.
      A missing or closed socket, a payload `packb` refuses or a body too
      long for the header gives `false` and writes nothing; a `sendall`
      that fails gives `false` after a prefix of the frame. */
  method SendPacket(sock: Socket?, codec: Codec, cipher: Cipher, cmd: Value, data: Value, encrypted: bool)
    returns (ok: bool)
    modifies sock
    ensures ok <==> sock != null && !old(sock.closed) && !old(sock.broken)
                    && Frame(codec, cipher, cmd, data, encrypted).Some?
    ensures sock != null ==>
              && sock.closed == old(sock.closed) && sock.broken == old(sock.broken)
              && sock.inbox == old(sock.inbox)
              && sock.requests == old(sock.requests)
    ensures ok ==> sock.sent == old(sock.sent) + Frame(codec, cipher, cmd, data, encrypted).value
    ensures sock != null && (old(sock.closed) || Frame(codec, cipher, cmd, data, encrypted).None?) ==>
              sock.sent == old(sock.sent)
    ensures sock != null && !ok ==>
              && old(sock.sent) <= sock.sent
              && (Frame(codec, cipher, cmd, data, encrypted).Some? ==>
                    sock.sent[|old(sock.sent)|..] <= Frame(codec, cipher, cmd, data, encrypted).value)
  {
    if sock == null || sock.closed {
      return false;
    }
    var payload := Payload(cmd, data);
    var packed := codec.pack(payload);
    if packed.None? {
      return false;
    }
    var finalPayload := packed.value;
    if encrypted {
      finalPayload := cipher.encrypt(packed.value);
    }
    var length := |finalPayload|;
    if length >= LENGTH_LIMIT {
      return false;
    }
    var header := EncodeLength(length);
    ok := sock.SendAll(header + finalPayload);
  }

  /** Every `recv` size in `sizes` is positive and at most `cap`. */
  predicate ReadsAtMost(sizes: seq<nat>, cap: nat) {
    forall i :: 0 <= i < |sizes| ==> 0 < sizes[i] <= cap
  }

  /** The `recv` calls issued since `before` was the request log. */
  ghost function NewReads(before: seq<nat>, after: seq<nat>): seq<nat>
    requires before <= after
  {
    after[|before|..]
  }

  lemma NewReadsAppend(before: seq<nat>, mid: seq<nat>, n: nat, cap: nat)
    requires before <= mid && ReadsAtMost(NewReads(before, mid), cap) && 0 < n <= cap
    ensures before <= mid + [n] && ReadsAtMost(NewReads(before, mid + [n]), cap)
  {
    assert NewReads(before, mid + [n]) == NewReads(before, mid) + [n];
  }

  /** The first loop of `receive_packet`: ask for the bytes still missing
      from the 4-byte header until it is complete. `None` when `recv`
      comes back empty first. */
  method ReadHeader(sock: Socket) returns (header: Option<Bytes>)
    requires sock.Valid()
    modifies sock
    ensures sock.Valid()
    ensures sock.closed == old(sock.closed) && sock.sent == old(sock.sent)
    ensures old(sock.requests) <= sock.requests
    ensures ReadsAtMost(NewReads(old(sock.requests), sock.requests), HEADER_LENGTH)
    ensures header.Some? <==> !old(sock.closed) && HEADER_LENGTH <= |old(sock.Pending())|
    ensures header.Some? ==> header.value == old(sock.Pending())[..HEADER_LENGTH]
                             && sock.Pending() == old(sock.Pending())[HEADER_LENGTH..]
    ensures header.None? && old(sock.closed) ==> sock.inbox == old(sock.inbox)
    ensures header.None? && !old(sock.closed) ==> sock.Pending() == []
  {
    ghost var stream := sock.Pending();
    ghost var before := sock.requests;
    var got: Bytes := [];
    while |got| < HEADER_LENGTH
      invariant sock.Valid()
      invariant sock.closed == old(sock.closed) && sock.sent == old(sock.sent)
      invariant |got| <= HEADER_LENGTH
      invariant stream == got + sock.Pending()
      invariant sock.closed ==> got == [] && sock.inbox == old(sock.inbox)
      invariant before <= sock.requests
      invariant ReadsAtMost(NewReads(before, sock.requests), HEADER_LENGTH)
      decreases HEADER_LENGTH - |got|
    {
      ghost var mid := sock.requests;
      var chunk := sock.Recv(HEADER_LENGTH - |got|);
      NewReadsAppend(before, mid, HEADER_LENGTH - |got|, HEADER_LENGTH);
      if chunk == [] {
        return None;
      }
      got := got + chunk;
    }
    assert stream[..HEADER_LENGTH] == got;
    return Some(got);
  }

  /** The second loop of `receive_packet`: ask for
      `min(remaining, BUFFER_SIZE)` bytes until `length` bytes are in.
      `None` when `recv` comes back empty first. */
  method ReadBody(sock: Socket, length: nat) returns (payload: Option<Bytes>)
    requires sock.Valid() && !sock.closed
    modifies sock
    ensures sock.Valid()
    ensures sock.closed == old(sock.closed) && sock.sent == old(sock.sent)
    ensures old(sock.requests) <= sock.requests
    ensures ReadsAtMost(NewReads(old(sock.requests), sock.requests), BUFFER_SIZE)
    ensures payload.Some? <==> length <= |old(sock.Pending())|
    ensures payload.Some? ==> payload.value == old(sock.Pending())[..length]
                              && sock.Pending() == old(sock.Pending())[length..]
    ensures payload.None? ==> sock.Pending() == []
  {
    ghost var stream := sock.Pending();
    ghost var before := sock.requests;
    var got: Bytes := [];
    while |got| < length
      invariant sock.Valid()
      invariant sock.closed == old(sock.closed) && sock.sent == old(sock.sent)
      invariant |got| <= length
      invariant stream == got + sock.Pending()
      invariant before <= sock.requests
      invariant ReadsAtMost(NewReads(before, sock.requests), BUFFER_SIZE)
      decreases length - |got|
    {
      var toRead := length - |got|;
      var readSize := if toRead < BUFFER_SIZE then toRead else BUFFER_SIZE;
      ghost var mid := sock.requests;
      var chunk := sock.Recv(readSize);
      NewReadsAppend(before, mid, readSize, BUFFER_SIZE);
      if chunk == [] {
        return None;
      }
      got := got + chunk;
    }
    assert stream[..length] == got;
    return Some(got);
  }

  /** `receive_packet`: the header, then exactly the body length it
      announces, then decrypt and unpack. A short read or a decoding
      failure gives `None`. Whatever the chunking, the result and the
      bytes taken off the stream are those of `ReceiveSpec` on the pending
      bytes, and no `recv` asks for more than `BUFFER_SIZE` bytes. */
  method ReceivePacket(sock: Socket, codec: Codec, cipher: Cipher, encrypted: bool) returns (r: Option<Value>)
    requires sock.Valid()
    modifies sock
    ensures sock.Valid()
    ensures sock.closed == old(sock.closed) && sock.sent == old(sock.sent)
    ensures old(sock.closed) ==> r == None && sock.inbox == old(sock.inbox)
    ensures !old(sock.closed) ==>
              var rx := ReceiveSpec(codec, cipher, old(sock.Pending()), encrypted);
              r == rx.packet && sock.Pending() == old(sock.Pending())[rx.consumed..]
    ensures old(sock.requests) <= sock.requests
    ensures ReadsAtMost(NewReads(old(sock.requests), sock.requests), BUFFER_SIZE)
  {
    ghost var stream := sock.Pending();
    ghost var before := sock.requests;
    var header := ReadHeader(sock);
    if header.None? {
      return None;
    }
    ghost var mid := sock.requests;
    var payloadLength := DecodeLength(header.value);
    var payload := ReadBody(sock, payloadLength);
    assert NewReads(before, sock.requests) == NewReads(before, mid) + NewReads(mid, sock.requests);
    if payload.None? {
      return None;
    }
    assert stream[HEADER_LENGTH..HEADER_LENGTH + payloadLength] == payload.value;
    assert sock.Pending() == stream[HEADER_LENGTH + payloadLength..];
    if encrypted {
      var plain := cipher.decrypt(payload.value);
      if plain.None? {
        return None;
      }
      r := codec.unpack(plain.value);
    } else {
      r := codec.unpack(payload.value);
    }
  }

  // ---------------------------------------------------------------------
  // Any chunking

  /** Cuts `b` into the chunks a network might deliver: pieces of the
      given sizes (a zero size is taken as 1), the remainder last. */
  function Chunk(b: Bytes, sizes: seq<nat>): (chunks: seq<Bytes>)
    ensures Concat(chunks) == b
    ensures forall i :: 0 <= i < |chunks| ==> chunks[i] != []
    decreases |b|
  {
    if b == [] then []
    else if sizes == [] then [b]
    else
      var k := if sizes[0] == 0 then 1 else if sizes[0] < |b| then sizes[0] else |b|;
      assert b == b[..k] + b[k..];
      [b[..k]] + Chunk(b[k..], sizes[1..])
  }

  /** One packet through `send_packet`, then through `receive_packet` on a
      socket that delivers the same bytes cut at arbitrary points: the
      receiver gets back the map the sender packed. */
  method Loopback(codec: Codec, cipher: Cipher, cmd: Value, data: Value, encrypted: bool, sizes: seq<nat>)
    returns (ok: bool, r: Option<Value>)
    requires Lossless(codec) && Authentic(cipher)
    ensures ok <==> Frame(codec, cipher, cmd, data, encrypted).Some?
    ensures ok ==> r == Some(Payload(cmd, data))
  {
    var out := new Socket([]);
    ok := SendPacket(out, codec, cipher, cmd, data, encrypted);
    if !ok {
      return ok, None;
    }
    var wire := out.sent;
    assert wire == Frame(codec, cipher, cmd, data, encrypted).value + [];
    var peer := new Socket(Chunk(wire, sizes));
    assert peer.Pending() == wire;
    ReceiveFrame(codec, cipher, cmd, data, encrypted, []);
    r := ReceivePacket(peer, codec, cipher, encrypted);
  }
}
