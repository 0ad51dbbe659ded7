/** Machine integer ranges and small shared definitions. */
module Machine {

  const U32_MAX: nat := 0xFFFF_FFFF
  const U64_MAX: nat := 0xFFFF_FFFF_FFFF_FFFF
  const U128_MAX: nat := 0xFFFF_FFFF_FFFF_FFFF_FFFF_FFFF_FFFF_FFFF
  const I64_MIN: int := -0x8000_0000_0000_0000
  const I64_MAX: int := 0x7FFF_FFFF_FFFF_FFFF

  type U64 = x: nat | x <= U64_MAX
  type I64 = x: int | I64_MIN <= x <= I64_MAX

  datatype Option<T> = None | Some(value: T)

  function Min(x: nat, y: nat): nat { if x <= y then x else y }

  function Max(x: nat, y: nat): nat { if x >= y then x else y }

  function Abs(x: int): nat { if x >= 0 then x else -x }

  function SaturatingMul(x: nat, y: nat, limit: nat): nat { Min(x * y, limit) }

  function SaturatingAdd(x: nat, y: nat, limit: nat): nat { Min(x + y, limit) }
}
