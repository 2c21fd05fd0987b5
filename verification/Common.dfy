/** What the modules share: machine values and error codes. */
module Common {

  const U32_MAX: nat := 0xFFFF_FFFF

  type u32 = n: nat | n <= U32_MAX

  newtype byte = x: int | 0 <= x < 256

  const EAGAIN: int := 11
  const ENOMEM: int := 12
  const EINVAL: int := 22
  const ETIMEDOUT: int := 110
  const ENOTSUPP: int := 524

  function B2I(b: bool): int { if b then 1 else 0 }
}
