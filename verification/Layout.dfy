/**
  Sizes of the shared memory and of its parts, as the build for 64-bit Linux lays
  them out (page mode, IVSHMEM_TYPE == 2), and the types the other modules share.
 */
module Layout {

  const PAGE: nat := 4096
  const SHM_SIZE: nat := 4 * 1024 * 1024
  const MAX_CHANNELS: nat := 32

  // sizeof(struct IvshmemControlSection): 16 bytes of counters, 32 channels of
  // 64 bytes, then the mutex, the candidate flag and the candidate key.
  const CONTROL_SIZE: nat := 2080
  const DATA_SIZE: nat := SHM_SIZE - CONTROL_SIZE
  const INIT_SIZE: nat := 4 * PAGE

  const U32: nat := 0x1_0000_0000
  const U64: nat := 0x1_0000_0000_0000_0000

  datatype Option<T> = None | Some(value: T)

  newtype Byte = x: int | 0 <= x < 256

  type Page = p: seq<Byte> | |p| == PAGE witness seq(PAGE, i => 0 as Byte)

  // A buffer size a C object can have, and one an `int` can count up to.
  type BufferSize = n: nat | n < 0x8000_0000_0000_0000
  type IntSize = n: nat | n < 0x8000_0000

  function Min(a: nat, b: nat): nat {
    if a < b then a else b
  }

  // Unsigned subtraction, which wraps.
  function SubU32(a: nat, b: nat): nat
    requires a < U32 && b < U32
  {
    (a + U32 - b) % U32
  }

  function SubU64(a: nat, b: nat): nat
    requires a < U64 && b < U64
  {
    (a + U64 - b) % U64
  }
}
