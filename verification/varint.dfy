/** QUIC variable-length integers: every error code sent on the wire must be
    at most 2^62 - 1 (section 16 of RFC 9000). */
module VarInt {
  import opened Async

  const MAX: nat := 0x3FFF_FFFF_FFFF_FFFF

  type VarInt = x: nat | x <= MAX

  const U64_MAX: nat := 0xFFFF_FFFF_FFFF_FFFF

  type u64 = x: nat | x <= U64_MAX

  datatype BoundsExceeded = BoundsExceeded

  /** The transport's checked conversion from a 64-bit code. */
  function FromU64(x: u64): (r: Result<VarInt, BoundsExceeded>)
    ensures r.Ok? <==> x <= MAX
    ensures r.Ok? ==> r.value == x
  {
    if x <= MAX then Ok(x) else Err(BoundsExceeded)
  }
}
