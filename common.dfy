/**
 * Vocabulary shared by every part of the oracle: the machine integer ranges
 * the contracts compute with, Option and Result, and the identifiers and
 * records that the contract crates declare alike.
 */
module Common {

  const U32_MAX: int := 0xFFFF_FFFF
  const U64_MAX: int := 0xFFFF_FFFF_FFFF_FFFF
  const I128_MIN: int := -0x8000_0000_0000_0000_0000_0000_0000_0000
  const I128_MAX: int := 0x7FFF_FFFF_FFFF_FFFF_FFFF_FFFF_FFFF_FFFF

  /** Rust's u32, u64 and i128, as ranges of the unbounded integers. */
  type u32 = x: int | 0 <= x <= 0xFFFF_FFFF
  type u64 = x: int | 0 <= x <= 0xFFFF_FFFF_FFFF_FFFF
  type i128 = x: int | -0x8000_0000_0000_0000_0000_0000_0000_0000 <= x <= 0x7FFF_FFFF_FFFF_FFFF_FFFF_FFFF_FFFF_FFFF

  datatype Option<+T> = None | Some(value: T)

  datatype Result<+T, +E> = Ok(value: T) | Err(error: E)

  /** An on-chain address (a contract or an account). Only equality is observable. */
  datatype Address = Address(id: nat)

  /** The key of one price record: an asset and the exact timestamp of the record. */
  datatype AssetPriceKey = AssetPriceKey(asset: Address, timestamp: u64)

  /** One entry of a price series: a fixed-point price and the timestamp it belongs to. */
  datatype PriceData = PriceData(price: i128, timestamp: u64)
}
