/**
 * The storage keys, error codes and configuration record of the shared crate
 * that the metered oracle contract builds on.
 */
module SharedTypes {
  import opened Common

  /** A 32-byte account id, the key of a prepaid balance. */
  type Bytes32 = s: seq<bv8> | |s| == 32 witness seq(32, i => 0 as bv8)

  datatype DataKey =
    | Admin
    | Price(key: AssetPriceKey)
    | Timestamp
    | RdmPeriod
    | Assets
    | BaseFee
    | Balance(account: Bytes32)

  datatype Error =
    | AlreadyInitialized
    | InvalidResolution
    | Unauthorized
    | InvalidTimestamp
    | PriceNotFound
    | InvalidAssetPair
    | AssetAlreadyPresented
    | InvalidUpdatesLength
    | InvalidPriceValue
    | NoPrevPrice
    | InvalidFeeAsset
    | DepositNotEnabled
    | InvalidDepositAmount
    | InvalidFreeResolution
    | InsufficientBalance
  {
    /** The numeric code the host reports for the error (7 is unused). */
    function Code(): nat {
      match this
      case AlreadyInitialized => 0
      case InvalidResolution => 1
      case Unauthorized => 2
      case InvalidTimestamp => 3
      case PriceNotFound => 4
      case InvalidAssetPair => 5
      case AssetAlreadyPresented => 6
      case InvalidUpdatesLength => 8
      case InvalidPriceValue => 9
      case NoPrevPrice => 10
      case InvalidFeeAsset => 11
      case DepositNotEnabled => 12
      case InvalidDepositAmount => 13
      case InvalidFreeResolution => 14
      case InsufficientBalance => 15
    }
  }

  /** The configuration handed to `config`. */
  datatype ConfigData = ConfigData(admin: Address, period: u64, assets: seq<Address>, baseFee: i128)
}
