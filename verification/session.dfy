/** Packets on the wire (reborn_protocol/codec.py and the policies of encryption.py):
    compression, encryption, length framing, and the receiver's buffer. */
module Session {
  import opened Bytes
  import Cipher

  const MAX_PACKET_LEN: int := 0xFFFF
  const MAX_DECOMPRESSED_SIZE: int := 8 * 1024 * 1024
  const PLAIN_ZLIB: byte := 0x78

  /** A compression library, as far as the protocol relies on one. `inflate` refuses
      what it cannot decode or what would exceed MAX_DECOMPRESSED_SIZE; output of exactly
      that size it may refuse too, with some of its input unread. */
  datatype Compressor = Compressor(deflate: bytes -> bytes, inflate: bytes -> Option<bytes>)

  datatype Library = Library(zlib: Compressor, bz2: Compressor)

  ghost predicate LosslessOn(c: Compressor) {
    forall d: bytes | |d| < MAX_DECOMPRESSED_SIZE :: c.inflate(c.deflate(d)) == Some(d)
  }

  /** Both compressors are lossless below the size limit, and zlib output starts with
      the header byte of section 2.2 of RFC 1950. */
  ghost predicate Sound(z: Library) {
    && LosslessOn(z.zlib) && LosslessOn(z.bz2)
    && forall d: bytes :: |z.zlib.deflate(d)| > 0 && z.zlib.deflate(d)[0] == PLAIN_ZLIB
  }

  datatype Policy = Policy(uncompressedMax: int, zlibMax: Option<int>)

  /** Also what `compress_data` does. */
  const GAME_COMPRESSION: Policy := Policy(55, Some(0x2000))
  const LIST_SERVER_COMPRESSION: Policy := Policy(55, None)

  /** CompressionPolicy.compress */
  function Compress(z: Library, p: Policy, data: bytes): (bytes, byte) {
    if |data| <= p.uncompressedMax then (data, Cipher.UNCOMPRESSED)
    else if p.zlibMax.Some? && |data| > p.zlibMax.value then (z.bz2.deflate(data), Cipher.BZ2)
    else (z.zlib.deflate(data), Cipher.ZLIB)
  }

  /** decompress_data */
  function Decompress(z: Library, data: bytes, kind: byte): Option<bytes> {
    if kind == Cipher.ZLIB then z.zlib.inflate(data)
    else if kind == Cipher.BZ2 then z.bz2.inflate(data)
    else Some(data)
  }

  /** `_frame`; the empty string when the payload does not fit the length field. */
  function Framed(payload: bytes): bytes {
    if |payload| > MAX_PACKET_LEN then [] else [|payload| / 256, |payload| % 256] + payload
  }

  /** A payload, and whether it goes out as bare zlib (the login response). */
  datatype Message = Message(data: bytes, plain: bool)

  predicate Dropped(z: Library, p: Policy, m: Message) {
    if m.plain then |z.zlib.deflate(m.data)| > MAX_PACKET_LEN
    else |Compress(z, p, m.data).0| + 1 > MAX_PACKET_LEN
  }

  /** The bytes one message puts on the wire and the sender's next cipher state. */
  function Sent(z: Library, p: Policy, s: Cipher.State, m: Message): (bytes, Cipher.State) {
    if m.plain then (Framed(z.zlib.deflate(m.data)), s)
    else
      var (c, kind) := Compress(z, p, m.data);
      if |c| + 1 > MAX_PACKET_LEN then ([], s)
      else
        var armed := Cipher.LimitFromType(s, kind);
        (Framed([kind] + Cipher.Crypt(armed, c)), Cipher.After(armed, |c|))
  }

  predicate IsType(b: byte) { b == Cipher.UNCOMPRESSED || b == Cipher.ZLIB || b == Cipher.BZ2 }

  /** The receiver's answer to one packet: ServerCodec.decode_packet past the login, or,
      if bare zlib is accepted, Gen5Codec.recv_packet. */
  function Received(z: Library, s: Cipher.State, packet: bytes, acceptPlain: bool)
    : (Option<bytes>, Cipher.State)
  {
    if packet == [] then (None, s)
    else if acceptPlain && packet[0] == PLAIN_ZLIB then (z.zlib.inflate(packet), s)
    else if !IsType(packet[0]) then (None, s)
    else
      var armed := Cipher.LimitFromType(s, packet[0]);
      (Decompress(z, Cipher.Crypt(armed, packet[1..]), packet[0]), Cipher.After(armed, |packet| - 1))
  }

  // ------------------------------------------------------------ the codecs

  /** The client side. */
  class Gen5Codec {
    const z: Library
    const policy: Policy
    const inCodec: Cipher.RebornEncryption
    const outCodec: Cipher.RebornEncryption

    constructor (z: Library, key: int, policy: Policy)
      ensures this.z == z && this.policy == policy && Valid()
      ensures fresh(inCodec) && fresh(outCodec)
      ensures inCodec.Current() == outCodec.Current() == Cipher.Fresh(key)
    {
      this.z, this.policy := z, policy;
      inCodec := new Cipher.RebornEncryption(key);
      outCodec := new Cipher.RebornEncryption(key);
    }

    predicate Valid() { inCodec != outCodec }

    method SetKey(key: int)
      requires Valid()
      modifies inCodec, outCodec
      ensures inCodec.Current() == outCodec.Current() == Cipher.Fresh(key)
    {
      inCodec.Reset(key);
      outCodec.Reset(key);
    }

    method SendPacket(data: bytes) returns (wire: bytes)
      requires Valid()
      modifies outCodec
      ensures (wire, outCodec.Current()) == Sent(z, policy, old(outCodec.Current()), Message(data, false))
    {
      var (compressed, kind) := Compress(z, policy, data);
      if |compressed| + 1 > MAX_PACKET_LEN {
        return [];
      }
      outCodec.ArmLimit(kind);
      var encrypted := outCodec.Encrypt(compressed);
      wire := Framed([kind] + encrypted);
    }

    method RecvPacket(data: bytes) returns (payload: Option<bytes>)
      requires Valid()
      modifies inCodec
      ensures (payload, inCodec.Current()) == Received(z, old(inCodec.Current()), data, true)
    {
      if |data| == 0 {
        return None;
      }
      if data[0] == PLAIN_ZLIB {
        return z.zlib.inflate(data);
      }
      if !IsType(data[0]) {
        return None;
      }
      inCodec.ArmLimit(data[0]);
      var decrypted := inCodec.Encrypt(data[1..]);
      payload := Decompress(z, decrypted, data[0]);
    }
  }

  /** decode_packet from the first packet on: until one has inflated, bare zlib only. */
  function ServerReceived(z: Library, first: bool, s: Cipher.State, packet: bytes)
    : (Option<bytes>, bool, Cipher.State)
  {
    if packet == [] then (None, first, s)
    else if first then
      var decoded := z.zlib.inflate(packet);
      (decoded, decoded.None?, s)
    else
      var (payload, s1) := Received(z, s, packet, false);
      (payload, false, s1)
  }

  /** The server side. */
  class ServerCodec {
    const z: Library
    const inCodec: Cipher.RebornEncryption
    const outCodec: Cipher.RebornEncryption
    var firstDecode: bool

    constructor (z: Library, key: int)
      ensures this.z == z && Valid() && firstDecode
      ensures fresh(inCodec) && fresh(outCodec)
      ensures inCodec.Current() == outCodec.Current() == Cipher.Fresh(key)
    {
      this.z, firstDecode := z, true;
      inCodec := new Cipher.RebornEncryption(key);
      outCodec := new Cipher.RebornEncryption(key);
    }

    predicate Valid() { inCodec != outCodec }

    method EncodePacket(data: bytes, isLoginResponse: bool) returns (wire: bytes)
      requires Valid()
      modifies outCodec
      ensures (wire, outCodec.Current()) ==
              Sent(z, GAME_COMPRESSION, old(outCodec.Current()), Message(data, isLoginResponse))
    {
      if isLoginResponse {
        return Framed(z.zlib.deflate(data));
      }
      var (compressed, kind) := Compress(z, GAME_COMPRESSION, data);
      if |compressed| + 1 > MAX_PACKET_LEN {
        return [];
      }
      outCodec.ArmLimit(kind);
      var encrypted := outCodec.Encrypt(compressed);
      wire := Framed([kind] + encrypted);
    }

    method DecodePacket(data: bytes) returns (payload: Option<bytes>)
      requires Valid()
      modifies this, inCodec
      ensures (payload, firstDecode, inCodec.Current()) ==
              ServerReceived(z, old(firstDecode), old(inCodec.Current()), data)
    {
      if |data| == 0 {
        return None;
      }
      if firstDecode {
        payload := z.zlib.inflate(data);
        if payload.Some? {
          firstDecode := false;
        }
        return;
      }
      if !IsType(data[0]) {
        return None;
      }
      inCodec.ArmLimit(data[0]);
      var decrypted := inCodec.Encrypt(data[1..]);
      payload := Decompress(z, decrypted, data[0]);
    }
  }

  // ------------------------------------------------------------- the buffer

  /** The big-endian length prefix. */
  function PrefixedLength(buffer: bytes): nat
    requires |buffer| >= 2
  {
    (buffer[0] as int) * 256 + (buffer[1] as int)
  }

  /** The complete packets at the head of a buffer, and what is left. */
  function Extract(buffer: bytes): (r: (seq<bytes>, bytes))
    ensures |r.1| <= |buffer|
    decreases |buffer|
  {
    if |buffer| < 2 || |buffer| < 2 + PrefixedLength(buffer) then ([], buffer)
    else
      var n := 2 + PrefixedLength(buffer);
      var (packets, rest) := Extract(buffer[n..]);
      ([buffer[2..n]] + packets, rest)
  }

  class PacketBuffer {
    var buffer: bytes

    constructor ()
      ensures buffer == []
    {
      buffer := [];
    }

    method AddData(data: bytes)
      modifies this
      ensures buffer == old(buffer) + data
    {
      buffer := buffer + data;
    }

    method GetPackets() returns (packets: seq<bytes>)
      modifies this
      ensures (packets, buffer) == Extract(old(buffer))
    {
      packets := [];
      assert [] + Extract(buffer).0 == Extract(buffer).0;
      while |buffer| >= 2
        invariant Extract(old(buffer)) == (packets + Extract(buffer).0, Extract(buffer).1)
        decreases |buffer|
      {
        ghost var before, had := packets, buffer;
        var length := PrefixedLength(buffer);
        if |buffer| < 2 + length {
          break;
        }
        packets := packets + [buffer[2..2 + length]];
        buffer := buffer[2 + length..];
        assert Extract(had).0 == [had[2..2 + length]] + Extract(buffer).0;
        assert before + ([had[2..2 + length]] + Extract(buffer).0) == packets + Extract(buffer).0;
      }
      assert packets + Extract(buffer).0 == packets;
    }
  }

  predicate Drained(buffer: bytes) { Extract(buffer) == ([], buffer) }

  /** Bytes arriving later only add to what has been extracted. */
  lemma {:induction false} ExtractMore(a: bytes, b: bytes)
    ensures var (packets, rest) := Extract(a);
            Extract(a + b) == (packets + Extract(rest + b).0, Extract(rest + b).1)
    ensures Drained(Extract(a).1)
    decreases |a|
  {
    if !(|a| < 2 || |a| < 2 + PrefixedLength(a)) {
      var n := 2 + PrefixedLength(a);
      assert (a + b)[n..] == a[n..] + b && (a + b)[2..n] == a[2..n];
      ExtractMore(a[n..], b);
      var (more, rest) := Extract(a[n..]);
      assert [a[2..n]] + (more + Extract(rest + b).0) == ([a[2..n]] + more) + Extract(rest + b).0;
    } else {
      assert [] + Extract(a + b).0 == Extract(a + b).0;
    }
  }

  /** The buffer fed chunk by chunk, every chunk followed by `get_packets`. */
  function Feed(buffer: bytes, chunks: seq<bytes>): (seq<bytes>, bytes)
    decreases |chunks|
  {
    if chunks == [] then ([], buffer)
    else
      var (packets, rest) := Extract(buffer + chunks[0]);
      var (more, last) := Feed(rest, chunks[1..]);
      (packets + more, last)
  }

  /** However a stream is cut, the same packets come out. */
  lemma {:induction false} CuttingIsInvisible(buffer: bytes, chunks: seq<bytes>)
    requires Drained(buffer)
    ensures Feed(buffer, chunks) == Extract(buffer + Concat(chunks))
    decreases |chunks|
  {
    hide Extract;
    if chunks == [] {
      assert buffer + [] == buffer;
    } else {
      var (packets, rest) := Extract(buffer + chunks[0]);
      ExtractMore(buffer + chunks[0], Concat(chunks[1..]));
      assert buffer + Concat(chunks) == buffer + chunks[0] + Concat(chunks[1..]);
      CuttingIsInvisible(rest, chunks[1..]);
    }
  }

  // ------------------------------------------------------------ whole sessions

  function SentAll(z: Library, p: Policy, s: Cipher.State, ms: seq<Message>): (bytes, Cipher.State)
    decreases |ms|
  {
    if ms == [] then ([], s)
    else
      var (wire, s1) := Sent(z, p, s, ms[0]);
      var (rest, s2) := SentAll(z, p, s1, ms[1..]);
      (wire + rest, s2)
  }

  function ReceivedAll(z: Library, s: Cipher.State, packets: seq<bytes>, acceptPlain: bool)
    : (seq<Option<bytes>>, Cipher.State)
    decreases |packets|
  {
    if packets == [] then ([], s)
    else
      var (payload, s1) := Received(z, s, packets[0], acceptPlain);
      var (rest, s2) := ReceivedAll(z, s1, packets[1..], acceptPlain);
      ([payload] + rest, s2)
  }

  /** The payloads not dropped as oversize. */
  function Delivered(z: Library, p: Policy, ms: seq<Message>): seq<Option<bytes>>
    decreases |ms|
  {
    if ms == [] then []
    else (if Dropped(z, p, ms[0]) then [] else [Some(ms[0].data)]) + Delivered(z, p, ms[1..])
  }

  /** One message that is not dropped: a frame whose packet decodes to the payload and
      leaves the two ciphers in step. */
  lemma OneMessage(z: Library, p: Policy, s: Cipher.State, r: Cipher.State, m: Message, acceptPlain: bool)
    requires Sound(z) && Cipher.InStep(s, r)
    requires |m.data| < MAX_DECOMPRESSED_SIZE && (m.plain ==> acceptPlain)
    requires !Dropped(z, p, m)
    ensures var (wire, s1) := Sent(z, p, s, m);
            |wire| >= 2 && |wire| == 2 + PrefixedLength(wire) &&
            Received(z, r, wire[2..], acceptPlain).0 == Some(m.data) &&
            Cipher.InStep(s1, Received(z, r, wire[2..], acceptPlain).1)
  {
    var (wire, s1) := Sent(z, p, s, m);
    if m.plain {
      assert wire[2..] == z.zlib.deflate(m.data);
    } else {
      var (c, kind) := Compress(z, p, m.data);
      var armed := Cipher.LimitFromType(s, kind);
      var packet := [kind] + Cipher.Crypt(armed, c);
      assert wire[2..] == packet && packet[1..] == Cipher.Crypt(armed, c);
      assert armed == Cipher.LimitFromType(r, kind);
      Cipher.CryptTwice(armed, c);
    }
  }

  lemma {:induction false} DeliveredInOrder(
    z: Library, p: Policy, s: Cipher.State, r: Cipher.State, ms: seq<Message>, acceptPlain: bool)
    requires Sound(z) && Cipher.InStep(s, r)
    requires forall m :: m in ms ==> |m.data| < MAX_DECOMPRESSED_SIZE && (m.plain ==> acceptPlain)
    ensures var (wire, s1) := SentAll(z, p, s, ms);
            var (packets, rest) := Extract(wire);
            var (payloads, r1) := ReceivedAll(z, r, packets, acceptPlain);
            rest == [] && payloads == Delivered(z, p, ms) && Cipher.InStep(s1, r1)
    decreases |ms|
  {
    if ms != [] {
      var (wire, s1) := Sent(z, p, s, ms[0]);
      var (later, s2) := SentAll(z, p, s1, ms[1..]);
      if Dropped(z, p, ms[0]) {
        assert wire + later == later;
        DeliveredInOrder(z, p, s1, r, ms[1..], acceptPlain);
      } else {
        OneMessage(z, p, s, r, ms[0], acceptPlain);
        var packet := wire[2..];
        assert (wire + later)[2..|wire|] == packet && (wire + later)[|wire|..] == later;
        assert Extract(wire + later) == ([packet] + Extract(later).0, Extract(later).1);
        var r1 := Received(z, r, packet, acceptPlain).1;
        DeliveredInOrder(z, p, s1, r1, ms[1..], acceptPlain);
        assert ([packet] + Extract(later).0)[1..] == Extract(later).0;
      }
    }
  }

  /** End to end: whatever is sent and however the stream is cut, the receiver that
      started in step gets exactly the payloads that were not dropped, in order, nothing
      is left in its buffer, and the ciphers are in step again. It holds for every prefix
      of a conversation, so the ciphers agree after each packet, dropped ones included. */
  lemma {:induction false} EndToEnd(
    z: Library, p: Policy, s: Cipher.State, r: Cipher.State, ms: seq<Message>, acceptPlain: bool,
    chunks: seq<bytes>)
    requires Sound(z) && Cipher.InStep(s, r)
    requires forall m :: m in ms ==> |m.data| < MAX_DECOMPRESSED_SIZE && (m.plain ==> acceptPlain)
    requires Concat(chunks) == SentAll(z, p, s, ms).0
    ensures var (packets, rest) := Feed([], chunks);
            var (payloads, r1) := ReceivedAll(z, r, packets, acceptPlain);
            rest == [] && payloads == Delivered(z, p, ms) &&
            Cipher.InStep(SentAll(z, p, s, ms).1, r1)
  {
    CuttingIsInvisible([], chunks);
    assert [] + Concat(chunks) == Concat(chunks);
    DeliveredInOrder(z, p, s, r, ms, acceptPlain);
  }

  /** A dropped payload costs the sender nothing: no bytes, no cipher advance. */
  lemma DroppedLeavesNoTrace(z: Library, p: Policy, s: Cipher.State, m: Message)
    ensures Dropped(z, p, m) <==> Sent(z, p, s, m).0 == []
    ensures Dropped(z, p, m) ==> Sent(z, p, s, m).1 == s
  {
  }

  /** What stands on the wire, byte by byte: the big-endian length of what follows it, then
      either bare zlib, or the type byte the payload's size decides and the encrypted body. */
  lemma WireForm(z: Library, game: bool, s: Cipher.State, m: Message)
    ensures var (wire, s1) := Sent(z, if game then GAME_COMPRESSION else LIST_SERVER_COMPRESSION, s, m);
            var kind := if |m.data| <= 55 then 2 else if game && |m.data| > 8192 then 6 else 4;
            var body := if m.plain || kind == 4 then z.zlib.deflate(m.data)
                        else if kind == 2 then m.data else z.bz2.deflate(m.data);
            var size := if m.plain then |body| else 1 + |body|;
            if size > 65535 then wire == [] && s1 == s
            else
              && |wire| == 2 + size && (wire[0] as int) * 256 + (wire[1] as int) == size
              && if m.plain then wire[2..] == body && s1 == s
                 else wire[2] == kind && wire[3..] == Cipher.Crypt(Cipher.LimitFromType(s, kind), body)
                      && s1 == Cipher.After(Cipher.LimitFromType(s, kind), |body|)
  {
    hide Cipher.Crypt, Cipher.After, Cipher.LimitFromType;
  }

  /** What a receiver does not take: an empty packet, and one whose first byte is no type (nor,
      where bare zlib is accepted, its header). The cipher does not move for it, nor for bare
      zlib. */
  lemma RefusedPackets(z: Library, s: Cipher.State, packet: bytes, acceptPlain: bool)
    ensures packet == [] ==> Received(z, s, packet, acceptPlain) == (None, s)
    ensures packet != [] && packet[0] !in {2, 4, 6, 0x78} ==> Received(z, s, packet, acceptPlain) == (None, s)
    ensures packet != [] && packet[0] == 0x78 ==>
              Received(z, s, packet, acceptPlain) == (if acceptPlain then z.zlib.inflate(packet) else None, s)
  {
    hide Cipher.Crypt, Cipher.After, Cipher.LimitFromType;
  }

  function ServerReceivedAll(z: Library, first: bool, s: Cipher.State, packets: seq<bytes>)
    : (seq<Option<bytes>>, bool, Cipher.State)
    decreases |packets|
  {
    if packets == [] then ([], first, s)
    else
      var (payload, first1, s1) := ServerReceived(z, first, s, packets[0]);
      var (rest, first2, s2) := ServerReceivedAll(z, first1, s1, packets[1..]);
      ([payload] + rest, first2, s2)
  }

  lemma {:induction false} SteadyServer(z: Library, s: Cipher.State, packets: seq<bytes>)
    ensures var (payloads, s1) := ReceivedAll(z, s, packets, false);
            ServerReceivedAll(z, false, s, packets) == (payloads, false, s1)
    decreases |packets|
  {
    if packets != [] { SteadyServer(z, Received(z, s, packets[0], false).1, packets[1..]); }
  }

  function Packets(payloads: seq<bytes>): seq<Message> {
    seq(|payloads|, i requires 0 <= i < |payloads| => Message(payloads[i], false))
  }

  /** A client's whole session: the login goes first as bare zlib, the rest through the
      cipher; a new server codec with the client's key reads all of it. */
  lemma {:induction false} WholeClientSession(
    z: Library, p: Policy, key: int, login: bytes, payloads: seq<bytes>, chunks: seq<bytes>)
    requires Sound(z)
    requires |login| < MAX_DECOMPRESSED_SIZE && |z.zlib.deflate(login)| <= MAX_PACKET_LEN
    requires forall d :: d in payloads ==> |d| < MAX_DECOMPRESSED_SIZE
    requires Concat(chunks) ==
             Framed(z.zlib.deflate(login)) + SentAll(z, p, Cipher.Fresh(key), Packets(payloads)).0
    ensures var ms := Packets(payloads);
            var (packets, rest) := Feed([], chunks);
            var (got, first, r1) := ServerReceivedAll(z, true, Cipher.Fresh(key), packets);
            rest == [] && !first && got == [Some(login)] + Delivered(z, p, ms) &&
            Cipher.InStep(SentAll(z, p, Cipher.Fresh(key), ms).1, r1)
  {
    var ms := Packets(payloads);
    var s := Cipher.Fresh(key);
    var plain := z.zlib.deflate(login);
    var hello, later := Framed(plain), SentAll(z, p, s, ms).0;
    CuttingIsInvisible([], chunks);
    assert [] + Concat(chunks) == hello + later;
    assert (hello + later)[2..|hello|] == plain && (hello + later)[|hello|..] == later;
    assert Extract(hello + later) == ([plain] + Extract(later).0, Extract(later).1);
    assert ([plain] + Extract(later).0)[1..] == Extract(later).0;
    DeliveredInOrder(z, p, s, s, ms, false);
    SteadyServer(z, s, Extract(later).0);
  }
}
