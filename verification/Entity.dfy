// The values that every other module passes around: identifiers, devices,
// peers and message envelopes (main/entity).
module Entity {

  type Byte = b: int | 0 <= b < 256

  type Bytes = seq<Byte>

  type Raw = s: Bytes | |s| == 16 witness seq(16, _ => 0)

  // An identifier is 16 bytes. The wrapper keeps identifiers apart from other byte strings.
  datatype Id = Id(raw: Raw)

  const ZERO_ID: Id := Id([0, 0, 0, 0, 0, 0, 0, 0, 0, 0, 0, 0, 0, 0, 0, 0])

  // Go's `int` is 64 bits wide on every platform the client is built for.
  const TWO_63: int := 0x8000_0000_0000_0000
  const TWO_64: int := 0x1_0000_0000_0000_0000
  type Int64 = v: int | -0x8000_0000_0000_0000 <= v < 0x8000_0000_0000_0000
  const MAX_INT: Int64 := 0x7fff_ffff_ffff_ffff
  const MIN_INT: Int64 := -0x8000_0000_0000_0000

  // Addition of one in 64-bit two's complement: it wraps at the top.
  function Increment(v: Int64): Int64 {
    if v == MAX_INT then MIN_INT else v + 1
  }

  // Go strings are byte strings; an address is one of them.
  datatype Address = Address(text: Bytes)

  datatype Device = Device(id: Id, owner: Id, kind: Byte, state: Byte, version: Int64)

  const KIND_UNKNOWN: Byte := 0xf

  datatype Peer = Peer(id: Id, address: Address)

  datatype Message = Message(id: Id, sender: Id, kind: Byte, data: Bytes)

  const HAIL: Byte := 1
  const PATCH: Byte := 2
  const SYNC: Byte := 3
  const PEER: Byte := 4
  const FAREWELL: Byte := 5

  // A Go call that returns (value, error) or panics at run time.
  datatype Result<+T> = Ok(value: T) | Error | Panic

  datatype Option<+T> = None | Some(value: T)

  function NewBytesId(bytes: Bytes): Result<Id> {
    if |bytes| == 16 then Ok(Id(bytes)) else Error
  }
}
