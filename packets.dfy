/** The immutable records a port carries: `PortPacket` and its payload. */
module Packets {

  /** The packet key is a Rust `u64`. */
  type U64 = k: int | 0 <= k < 0x1_0000_0000_0000_0000

  /** `ZxError` is an `i32`-represented status code; only its range and `OK` matter here. */
  type ZxError = c: int | -0x8000_0000 <= c < 0x8000_0000

  const OK: ZxError := 0

  /** A `Signal` value is a 32-bit flag set. */
  type SignalBits = bv32

  const READABLE: SignalBits := 1 << 0
  const WRITABLE: SignalBits := 1 << 1

  /** The opaque block of a user packet: exactly 32 bytes (`[u8; 32]`). */
  type UserBlock = b: seq<bv8> | |b| == 32 witness seq(32, _ => 0)

  /** Either a captured signal snapshot or a user-supplied block. */
  datatype PortPacketPayload =
    | Signal(bits: SignalBits)
    | User(block: UserBlock)

  /** One event delivered through a port; packets have no identity beyond their position. */
  datatype PortPacket = PortPacket(key: U64, status: ZxError, data: PortPacketPayload)
}
