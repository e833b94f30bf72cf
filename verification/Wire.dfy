// The datagram format: a 33-byte header and a payload per message type
// (main/message/adapters.go and main/entity/message.go).
module Wire {
  import opened Entity
  import opened ByteSlice

  const HEADER_LENGTH := 33
  const SIGNATURE_LENGTH := 0

  // id, type, sender, data: the order in which the send handler writes them.
  function EncodeEnvelope(m: Message): Bytes {
    m.id.raw + [m.kind] + m.sender.raw + m.data
  }

  function DecodeEnvelope(b: Bytes): Result<Message> {
    if |b| < HEADER_LENGTH then Error
    else Ok(Message(Id(b[..16]), Id(b[17..33]), b[16], b[33..]))
  }

  function EncodePatch(device: Id, state: Byte): Bytes {
    device.raw + [state]
  }

  function DecodePatch(data: Bytes): Result<(Id, Byte)> {
    if |data| < 17 then Error else Ok((Id(data[..16]), data[16]))
  }

  function EncodeSync(d: Device): Bytes {
    d.id.raw + d.owner.raw + [d.kind] + [d.state] + Int64Bytes(d.version)
  }

  function DecodeSync(data: Bytes): Result<Device> {
    if |data| < 34 then Error
    else if 0 < |data[34..]| < 8 then Panic
    else Ok(Device(Id(data[..16]), Id(data[16..32]), data[32], data[33], BytesInt64(data[34..])))
  }

  function EncodePeer(p: Peer): Bytes {
    p.id.raw + p.address.text
  }

  function DecodePeer(data: Bytes): Result<Peer> {
    if |data| < 16 then Error else Ok(Peer(Id(data[..16]), Address(data[16..])))
  }

  lemma EnvelopeDecodes(m: Message)
    ensures DecodeEnvelope(EncodeEnvelope(m)) == Ok(m)
  {
    var b := EncodeEnvelope(m);
    assert b[..16] == m.id.raw;
    assert b[17..33] == m.sender.raw;
    assert b[33..] == m.data;
  }

  // A relayed datagram leaves with the very bytes it arrived with.
  lemma EnvelopeReencodes(b: Bytes)
    ensures DecodeEnvelope(b).Ok? <==> 33 <= |b|
    ensures DecodeEnvelope(b).Ok? ==> EncodeEnvelope(DecodeEnvelope(b).value) == b
  {
    if HEADER_LENGTH <= |b| {
      assert b == b[..16] + [b[16]] + b[17..33] + b[33..];
    }
  }

  lemma PatchDecodes(device: Id, state: Byte)
    ensures DecodePatch(EncodePatch(device, state)) == Ok((device, state))
  {
  }

  lemma SyncDecodes(d: Device)
    ensures DecodeSync(EncodeSync(d)) == Ok(d)
  {
    var data := EncodeSync(d);
    assert data[..16] == d.id.raw;
    assert data[16..32] == d.owner.raw;
    assert data[34..] == Int64Bytes(d.version);
    Int64RoundTrip(d.version);
  }

  // Sync payloads of the length this program writes carry nothing but the device.
  lemma SyncReencodes(data: Bytes)
    requires |data| == 42
    ensures DecodeSync(data).Ok? && EncodeSync(DecodeSync(data).value) == data
  {
    BytesRoundTrip(data[34..]);
    assert data == data[..16] + data[16..32] + [data[32]] + [data[33]] + data[34..];
  }

  lemma PeerDecodes(p: Peer)
    ensures DecodePeer(EncodePeer(p)) == Ok(p)
  {
  }

  // ---- Where everything lies ----

  lemma EnvelopeLayout(m: Message)
    ensures var b := EncodeEnvelope(m);
            && |b| == 33 + |m.data|
            && b[..16] == m.id.raw && b[16] == m.kind && b[17..33] == m.sender.raw && b[33..] == m.data
  {
  }

  lemma PatchLayout(device: Id, state: Byte)
    ensures var b := EncodePatch(device, state); |b| == 17 && b[..16] == device.raw && b[16] == state
  {
  }

  lemma SyncLayout(d: Device)
    ensures var b := EncodeSync(d);
            && |b| == 42 && b[..16] == d.id.raw && b[16..32] == d.owner.raw && b[32] == d.kind && b[33] == d.state
            && forall k :: 0 <= k < 8 ==> b[34..][k] == Digit(d.version, 7 - k)
  {
    assert EncodeSync(d)[34..] == Int64Bytes(d.version);
    forall k | 0 <= k < 8
      ensures Int64Bytes(d.version)[k] == Digit(d.version, 7 - k)
    {
      Int64Digits(d.version, k);
    }
  }

  lemma PeerLayout(p: Peer)
    ensures var b := EncodePeer(p); 16 <= |b| && b[..16] == p.id.raw && b[16..] == p.address.text
  {
  }

  // bytes.Buffer: reads consume from the front, writes append.
  class Buffer {
    var unread: Bytes

    constructor (content: Bytes)
      ensures unread == content
    {
      unread := content;
    }

    method Next(n: nat) returns (taken: Bytes)
      modifies this
      ensures taken + unread == old(unread)
      ensures |taken| == if n <= old(|unread|) then n else old(|unread|)
    {
      var k := if n <= |unread| then n else |unread|;
      taken, unread := unread[..k], unread[k..];
    }

    // Next(unit.MaxInt): no slice is longer than that.
    method Rest() returns (taken: Bytes)
      modifies this
      ensures taken == old(unread) && unread == []
    {
      taken, unread := unread, [];
    }

    method ReadByte() returns (b: Result<Byte>)
      modifies this
      ensures old(unread) == [] ==> b == Error && unread == []
      ensures old(unread) != [] ==> b == Ok(old(unread)[0]) && unread == old(unread)[1..]
    {
      if unread == [] {
        b := Error;
      } else {
        b, unread := Ok(unread[0]), unread[1..];
      }
    }

    method Write(data: Bytes)
      modifies this
      ensures unread == old(unread) + data
    {
      unread := unread + data;
    }
  }

  method WriteEnvelope(m: Message) returns (datagram: Bytes)
    ensures datagram == EncodeEnvelope(m)
    ensures DecodeEnvelope(datagram) == Ok(m)
  {
    var writer := new Buffer([]);
    writer.Write(m.id.raw);
    writer.Write([m.kind]);
    writer.Write(m.sender.raw);
    writer.Write(m.data[..|m.data| - SIGNATURE_LENGTH]);
    writer.Write(m.data[|m.data| - SIGNATURE_LENGTH..]);
    datagram := writer.unread;
    assert datagram == EncodeEnvelope(m);
    EnvelopeDecodes(m);
  }

  method WritePatch(device: Id, state: Byte) returns (data: Bytes)
    ensures data == EncodePatch(device, state)
    ensures DecodePatch(data) == Ok((device, state))
  {
    var writer := new Buffer([]);
    writer.Write(device.raw);
    writer.Write([state]);
    data := writer.unread;
    PatchDecodes(device, state);
  }

  method ReadPatch(m: Message) returns (r: Result<(Id, Byte)>)
    ensures r == DecodePatch(m.data)
  {
    var reader := new Buffer(m.data);
    var idBytes := reader.Next(16);
    var device := NewBytesId(idBytes);
    if !device.Ok? {
      return Error;
    }
    assert idBytes == m.data[..16] && reader.unread == m.data[16..];
    var value := reader.ReadByte();
    if !value.Ok? {
      return Error;
    }
    r := Ok((device.value, value.value));
  }

  method WriteSync(d: Device) returns (data: Bytes)
    ensures data == EncodeSync(d)
    ensures DecodeSync(data) == Ok(d)
  {
    var writer := new Buffer([]);
    writer.Write(d.id.raw);
    writer.Write(d.owner.raw);
    writer.Write([d.kind]);
    writer.Write([d.state]);
    var version := Int64ToBytes(d.version);
    writer.Write(version[..]);
    data := writer.unread;
    assert data == EncodeSync(d);
    SyncDecodes(d);
  }

  method ReadSync(m: Message) returns (r: Result<Device>)
    ensures r == DecodeSync(m.data)
  {
    var reader := new Buffer(m.data);
    var idBytes := reader.Next(16);
    var device := NewBytesId(idBytes);
    if !device.Ok? {
      return Error;
    }
    assert idBytes == m.data[..16] && reader.unread == m.data[16..];
    var ownerBytes := reader.Next(16);
    var owner := NewBytesId(ownerBytes);
    if !owner.Ok? {
      return Error;
    }
    assert m.data[16..] == ownerBytes + reader.unread;
    assert ownerBytes == m.data[16..32] && reader.unread == m.data[32..];
    var kind := reader.ReadByte();
    if !kind.Ok? {
      return Error;
    }
    var state := reader.ReadByte();
    if !state.Ok? {
      return Error;
    }
    assert reader.unread == m.data[34..];
    var versionBytes := reader.Rest();
    if 0 < |versionBytes| < 8 {
      return Panic;
    }
    var version := BytesToInt64(versionBytes);
    r := Ok(Device(device.value, owner.value, kind.value, state.value, version));
  }

  method ReadPeer(m: Message) returns (r: Result<Peer>)
    ensures r == DecodePeer(m.data)
  {
    var reader := new Buffer(m.data);
    var idBytes := reader.Next(16);
    var peer := NewBytesId(idBytes);
    if !peer.Ok? {
      return Error;
    }
    assert idBytes == m.data[..16] && reader.unread == m.data[16..];
    var addressBytes := reader.Rest();
    r := Ok(Peer(peer.value, Address(addressBytes)));
  }
}
