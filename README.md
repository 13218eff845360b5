# Oracle contracts: storage engine, metered access and the single-slot oracle

This project models three pieces of a set of Soroban price-oracle contracts.

- **The oracle storage engine** (`env_extensions.dfy`, module `EnvExtensions`). This covers:
  - the typed getters and setters over the contract's key-value store;
  - the admin check;
  - the cross-price derivation;
  - the backward history scan behind `get_prices` and `get_x_prices`.

  The store is a `map<DataKey, Value>`, and `WellTyped` states which kind of value each key holds. Setters are methods of the class `Env`, which owns the store. Read-only operations are functions over a snapshot of the store. The scan loop `Prices` is proved against the specification function `History`/`Series`. `IsRun` characterises that function independently.
- **The metered-access contract** (`metered_oracle.dfy`, module `MeteredOracle`). It covers:
  - prepaid balances in one fee asset;
  - a base fee that only the admin sets;
  - the charge of `base_fee * multiplier` taken before every billable query, with that query's fixed multiplier.

  The class `PriceOracleContract` owns the store. A call that aborts leaves the store as it was, because the host discards the writes of an aborted call.
- **The single-slot oracle** (`legacy_oracle.dfy`, module `LegacyOracle`). This is a one-shot `init`, a per-identity nonce, and an admin-signed `set_price`. `set_price` stamps each asset's slot with the ledger time, and `get_price` answers a tagged `None` for an asset never written.

Shared vocabulary lives in `common.dfy`: the machine integer ranges `u32`, `u64` and `i128`, plus `Option`, `Result`, `Address` and `PriceData`. `oracle_types.dfy` and `shared_types.dfy` mirror the two crates' keys, error codes and configuration record.

Integers are unbounded in Dafny. The source's machine arithmetic is written out explicitly:

- The scan's `timestamp -= timeframe` is `u64` subtraction. Assuming overflow checks are on, an underflow aborts; the model makes it the error `Abort.Overflow`.
- `base_fee * multiplier` in `i128` and `records * 2` in `u32` are preconditions: `ChargeFits`, and `records * 2 <= U32_MAX`.

On a missing slot the loop reaches `continue` before `timestamp -= timeframe`. It therefore probes the same missing slot in every remaining round. The collected series ends at the first gap rather than skipping it. `Series`, `IsRun` and the lemma `FirstGapEndsSeries` state this behaviour.

## Model

| member | source | states |
|---|---|---|
| EnvExtensions.GetAdmin | src/extensions/env_extensions.rs:80-86 | None exactly when no admin is stored, otherwise the stored address |
| EnvExtensions.GetBase | src/extensions/env_extensions.rs:92-98 | None exactly when no base asset is stored, otherwise the stored address |
| EnvExtensions.GetPrice | src/extensions/env_extensions.rs:104-115 | None exactly when no record exists at the exact (asset, timestamp) key, otherwise the stored price |
| EnvExtensions.GetLastTimestamp | src/extensions/env_extensions.rs:125-133 | None exactly when the last-timestamp marker is absent, otherwise the marker |
| EnvExtensions.GetDecimals | src/extensions/env_extensions.rs:208-213 | None exactly when decimals are unset, otherwise the stored value |
| EnvExtensions.GetRdmPeriod | src/extensions/env_extensions.rs:219-224 | None exactly when the retention period is unset, otherwise the stored value |
| EnvExtensions.GetResolution | src/extensions/env_extensions.rs:230-235 | None exactly when the resolution is unset, otherwise the stored value |
| EnvExtensions.GetAssets | src/extensions/env_extensions.rs:139-145 | the empty list when no asset list is stored, otherwise the stored list |
| EnvExtensions.IsAuthorized | src/extensions/env_extensions.rs:65-74 | false when no admin is stored; otherwise true exactly when the invoker is the stored admin |
| EnvExtensions.IsInitialized | src/extensions/env_extensions.rs:76-78 | initialized exactly when an admin is stored |
| EnvExtensions.Env.constructor | src/extensions/env_extensions.rs:63 | the engine starts from a well-typed store |
| EnvExtensions.Env.SetAdmin | src/extensions/env_extensions.rs:88-90 | only the admin key changes; the getter then returns the new admin |
| EnvExtensions.Env.SetBase | src/extensions/env_extensions.rs:100-102 | only the base key changes; the getter then returns the new base |
| EnvExtensions.Env.SetPrice | src/extensions/env_extensions.rs:117-123 | only the (asset, timestamp) key changes; the getter returns the new price there and the old answer at every other key |
| EnvExtensions.Env.SetLastTimestamp | src/extensions/env_extensions.rs:135-137 | only the marker changes; the getter then returns it |
| EnvExtensions.Env.SetDecimals | src/extensions/env_extensions.rs:215-217 | only the decimals key changes; the getter then returns it |
| EnvExtensions.Env.SetRdmPeriod | src/extensions/env_extensions.rs:226-228 | only the retention-period key changes; the getter then returns it |
| EnvExtensions.Env.SetResolution | src/extensions/env_extensions.rs:237-239 | only the resolution key changes; the getter then returns it |
| EnvExtensions.Env.SetAssets | src/extensions/env_extensions.rs:147-149 | only the asset-list key changes; the getter then returns the new list |
| EnvExtensions.PriceWriteIsolated | src/extensions/env_extensions.rs:104-123 | a price write round-trips through the getter at its own key, a second write overwrites the first, and every other key is unaffected |
| EnvExtensions.CrossPrice | src/extensions/env_extensions.rs:276-306 | equal assets abort with InvalidAssetPair before any lookup; a missing leg gives None; two present legs give exactly Some of fixed_div_floor of the two stored legs, and a Some result is always that quotient; an abort of the division propagates |
| EnvExtensions.GetXPrice | src/extensions/env_extensions.rs:151-164 | None while decimals are unset, otherwise the cross price at the stored decimals |
| EnvExtensions.Series | src/extensions/env_extensions.rs:256-267 | a collected series has at most `rounds` records and starts at the first probed slot |
| EnvExtensions.SeriesIsRun | src/extensions/env_extensions.rs:256-267 | a collected series is a run: each record one timeframe below the previous, each price the probe's answer at its slot, and the series stops short of `rounds` only at a missing slot |
| EnvExtensions.RunIsSeries | src/extensions/env_extensions.rs:256-267 | every such run is what the scan collects |
| EnvExtensions.SeriesIffRun | src/extensions/env_extensions.rs:256-267 | the scan collects `s` if and only if `s` is the longest run of consecutive present slots from the start, capped at `rounds` |
| EnvExtensions.History | src/extensions/env_extensions.rs:242-274 | None when the marker is absent or 0; a Some result is never empty |
| EnvExtensions.Prices | src/extensions/env_extensions.rs:242-274 | the loop (re-probing a missing slot, stepping back after each hit, underflow aborting) returns exactly History from the stored marker |
| EnvExtensions.GetPrices | src/extensions/env_extensions.rs:166-182 | None when resolution or decimals is unset, otherwise the history of the asset's direct prices at the stored resolution |
| EnvExtensions.GetXPrices | src/extensions/env_extensions.rs:184-206 | None when resolution or decimals is unset, otherwise the history of cross prices at the stored resolution and decimals |
| EnvExtensions.HistoryShape | src/extensions/env_extensions.rs:249-273 | a non-empty history has between 1 and `rounds` records, starts at the marker, steps back by exactly `timeframe`, reports each slot's own price, and ends early only before a missing slot |
| EnvExtensions.HistoryNoneIff | src/extensions/env_extensions.rs:249-271 | the history is None exactly when the marker is absent or 0, there are no rounds, or the marker's own slot is empty |
| EnvExtensions.AlignedScanNeverOverflows | src/extensions/env_extensions.rs:266 | a direct scan anchored on a multiple of the timeframe never underflows unless a record is stored at timestamp 0 |
| EnvExtensions.SamePairAborts | src/extensions/env_extensions.rs:283-286 | a cross history over equal assets aborts with InvalidAssetPair |
| EnvExtensions.FirstGapEndsSeries | src/extensions/env_extensions.rs:257-266 | with records at 300 and 100 and none at 200, three rounds of 100 yield only the record at 300 |
| MeteredOracle.GetBaseFee | price-oracle-plus/src/lib.rs:68-70 | None exactly when no base fee is stored, otherwise the stored fee |
| MeteredOracle.GetBalance | price-oracle-plus/src/lib.rs:60-62 | None exactly when the account has no balance, otherwise the stored balance |
| MeteredOracle.IsAdmin | price-oracle-plus/src/lib.rs:34 | true exactly when the user is the stored admin |
| MeteredOracle.Credit | price-oracle-plus/src/lib.rs:57 | the credit succeeds exactly when the balance extension admits it; then the balance (absent counting as 0) grows by exactly the amount and nothing else changes |
| MeteredOracle.Charge | price-oracle-plus/src/lib.rs:202-208 | fails with InsufficientBalance exactly when the extension refuses the debit; otherwise debits exactly base_fee * multiplier (an unset fee counting as 0) and changes nothing else, the fee included |
| MeteredOracle.Billed | price-oracle-plus/src/lib.rs:194-208 | an unknown invoker aborts with Unauthorized; otherwise the invoker is charged |
| MeteredOracle.ChargeNeverOverdraws | price-oracle-plus/src/lib.rs:202-208 | under the no-overdraft policy a charge succeeds exactly when the balance covers it and leaves it non-negative |
| MeteredOracle.PriceOracleContract.constructor | price-oracle-plus/src/lib.rs:17 | the contract starts from a well-typed store with a fixed fee asset and balance policy |
| MeteredOracle.PriceOracleContract.SetBaseFee | price-oracle-plus/src/lib.rs:35 | only the base fee changes, to the given value |
| MeteredOracle.PriceOracleContract.TryIncBalance | price-oracle-plus/src/lib.rs:205 | reports whether the extension admitted the change, and stores the credited balance only then |
| MeteredOracle.PriceOracleContract.Config | price-oracle-plus/src/lib.rs:23-27 | a failed configuration aborts and changes nothing; a successful one is followed by storing the configuration's base fee |
| MeteredOracle.PriceOracleContract.SetFee | price-oracle-plus/src/lib.rs:33-36 | a non-admin is refused with Unauthorized and nothing changes; the admin sets only the base fee |
| MeteredOracle.PriceOracleContract.Deposit | price-oracle-plus/src/lib.rs:46-58 | a non-positive amount aborts with InvalidDepositAmount, then another asset with InvalidFeeAsset, in both cases with nothing changed; otherwise the account is credited if the extension admits it, and the call returns normally either way |
| MeteredOracle.PriceOracleContract.ChargeOrPanic | price-oracle-plus/src/lib.rs:202-208 | the store becomes the charged store, or the call aborts with InsufficientBalance and nothing changes |
| MeteredOracle.PriceOracleContract.ChargeThenQuery | price-oracle-plus/src/lib.rs:98-106 | the invoker is charged before the query runs; the query's answer on the charged store is returned unchanged (a None answer is still paid for); any abort leaves the store as it was |
| MeteredOracle.PriceOracleContract.Price | price-oracle-plus/src/lib.rs:98-106 | charges multiplier 1, then returns the price query's answer unchanged |
| MeteredOracle.PriceOracleContract.LastPrice | price-oracle-plus/src/lib.rs:108-116 | charges multiplier 1, then returns the last-price query's answer unchanged |
| MeteredOracle.PriceOracleContract.XPrice | price-oracle-plus/src/lib.rs:118-131 | charges multiplier 2, then returns the cross-price query's answer unchanged |
| MeteredOracle.PriceOracleContract.XLtPrice | price-oracle-plus/src/lib.rs:133-141 | charges multiplier 2, then returns the last cross-price query's answer unchanged |
| MeteredOracle.PriceOracleContract.Prices | price-oracle-plus/src/lib.rs:143-151 | charges multiplier `records`, then returns the series query's answer unchanged |
| MeteredOracle.PriceOracleContract.XPrices | price-oracle-plus/src/lib.rs:153-166 | charges multiplier `records * 2`, then returns the cross series query's answer unchanged |
| MeteredOracle.PriceOracleContract.Twap | price-oracle-plus/src/lib.rs:168-176 | charges multiplier `records`, then returns the average query's answer unchanged |
| MeteredOracle.PriceOracleContract.XTwap | price-oracle-plus/src/lib.rs:178-186 | charges multiplier `records`, then returns the cross average query's answer unchanged |
| LegacyOracle.IsInitialized | src/lib.rs:79-81 | initialized exactly when an admin is stored |
| LegacyOracle.ReadNonce | src/lib.rs:47-53 | an identity never seen has nonce 0, otherwise the stored nonce |
| LegacyOracle.GetPrice | src/lib.rs:136-147 | the tagged None for an asset never written, otherwise the stored record |
| LegacyOracle.ApplyUpdates | src/lib.rs:116-132 | the batch keeps the store well typed and changes no key other than asset slots |
| LegacyOracle.BatchKeepsLastWrite | src/lib.rs:116-132 | after a batch, an asset holds the price of its last well-formed update stamped with the ledger time, so a later update overwrites an earlier one |
| LegacyOracle.BatchLeavesUnwritten | src/lib.rs:117-121 | an asset named by no well-formed entry keeps its price; malformed entries are skipped |
| LegacyOracle.OracleContract.constructor | src/lib.rs:74 | a fresh contract has empty storage |
| LegacyOracle.OracleContract.Init | src/lib.rs:84-89 | stores the admin only when none is stored; a second call aborts with "Contract already initialized" and changes nothing |
| LegacyOracle.OracleContract.ReadAndIncrementNonce | src/lib.rs:62-67 | returns the current nonce (0 if never set) and stores nonce + 1 |
| LegacyOracle.OracleContract.SetPrice | src/lib.rs:97-133 | aborts with "Not authorized by admin" when uninitialized or signed by anyone but the admin; aborts if the signature check refuses; otherwise consumes the signer's nonce and applies the batch at the ledger time |
| LegacyOracle.SetPriceTouchesOnlyAssetsAndSignerNonce | src/lib.rs:108-132 | a successful batch advances the signer's nonce by one and leaves the admin and every other nonce unchanged |

The methods `MeteredOracle.PrepaidQueriesScenario`, `MeteredOracle.RefusedQueryScenario` and `LegacyOracle.PublishScenario` walk through concrete call sequences. The last one follows the contract's own tests in src/test.rs:40-158: no price before `init`, an outsider refused before `init` (the uninitialized branch) and again after it (the admin-mismatch branch), prices 100 and 200 at ledger time 0, and None for an unknown asset.

## Left out

- price-oracle/src/lib.rs is not part of this model. Every function there delegates to the shared `PriceOracle` module, whose source is not available. That module is also what answers the metered contract's queries and performs its configuration. Here those are parameters (`PriceQuery` … `CrossAverageQuery`, `Configure`), and the model proves only what the metered contract does around them.
- The token transfer in `deposit` (price-oracle-plus/src/lib.rs:55-56) is a call into another contract and is not modelled. The fee asset built from a constant (price-oracle-plus/src/lib.rs:189-192) is the class constant `feeAsset`.
- Host authentication is not modelled: `require_auth` (src/extensions/env_extensions.rs:66, price-oracle-plus/src/lib.rs:47) and `e.invoker()` (price-oracle-plus/src/lib.rs:195). The authenticated identity is an input, and an absent invoker is `invoker == None`.
- LegacyOracle.OracleContract.SetPrice: the host's `check_auth` (src/lib.rs:108-114) is reduced to a pass/refuse verdict `authPasses`. When it passes, the signer's nonce is read and incremented. Signature verification is not modelled, and neither is the comparison of the supplied nonce, which `check_auth` performs.
- The ledger clock (src/lib.rs:129) is the parameter `now`.
- `fixed_div_floor` comes from an integer extension whose source is not available. It is the parameter `FixedDivFloor`, which may abort.
- The balance extension (`try_inc_balance`, `get_base_fee`, `set_base_fee`, `get_balance`) is not in the source either.
  - The fee and the balances are stored under the `BaseFee` and `Balance` keys.
  - An absent balance counts as 0, and an admitted change adds the amount.
  - Which changes it refuses is the abstract `Policy` (class constant `admits`). The only assumption is that it never admits a balance outside i128.
  - `NoOverdraft` is one such policy.
- MeteredOracle.IsAdmin: `panic_if_not_admin` (price-oracle-plus/src/lib.rs:34) is defined in the shared crate, which is not available. The model assumes that it compares the user with the stored admin and aborts with Unauthorized.
- MeteredOracle.PriceOracleContract.XPrices: `records * 2` in u32 and `base_fee * multiplier` in i128 (price-oracle-plus/src/lib.rs:160, 204) are required not to overflow, through `ChargeFits` and `records * 2 <= U32_MAX`. What the host does on overflow is not modelled.
- The retention period, the asset list and the base asset have getters and setters, but nothing in the modelled code uses them further.
- An abort is a `Result` error value. Rollback of the store on abort is stated for the metered contract and the legacy contract. The storage engine's setters cannot abort.
