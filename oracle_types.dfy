/**
 * The storage keys and error codes of the oracle crate whose storage engine
 * is modelled in EnvExtensions.
 */
module OracleTypes {
  import opened Common

  /** The tagged key under which every stored value lives. */
  datatype DataKey =
    | Admin
    | Base
    | Price(key: AssetPriceKey)
    | Timestamp
    | Decimals
    | RdmPeriod
    | Resolution
    | Assets

  /** The contract errors raised with panic_with_error!. */
  datatype Error =
    | IncorrectNonce
    | Unauthorized
    | InvalidAddressType
    | InvalidTimestamp
    | PriceNotFound
    | InvalidAssetPair
    | AssetAlreadyAdded
    | NoAssetsFound
    | InvalidUpdatesLength
    | InvalidUpdate
  {
    /** The numeric code the host reports for the error. */
    function Code(): nat {
      match this
      case IncorrectNonce => 1
      case Unauthorized => 2
      case InvalidAddressType => 3
      case InvalidTimestamp => 4
      case PriceNotFound => 5
      case InvalidAssetPair => 6
      case AssetAlreadyAdded => 7
      case NoAssetsFound => 8
      case InvalidUpdatesLength => 9
      case InvalidUpdate => 10
    }
  }
}
