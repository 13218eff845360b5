/**
 * The metered oracle contract: prepaid balances in a designated fee asset, a
 * base fee set by the admin, and a charge taken before every billable query.
 *
 * The contract's storage is a map from DataKey to Value owned by the class
 * PriceOracleContract. The price queries themselves, the contract configuration and
 * the balance extension's accept/refuse decision live in code that is not part
 * of this model; they enter as parameters (see the type synonyms below).
 */
module MeteredOracle {
  import opened Common
  import opened SharedTypes

  /** Why a call stops without returning: a contract error, or an abort raised
      by code outside the contract (a collaborator that is not modelled). */
  datatype Abort = Panic(error: Error) | HostAbort

  datatype Value =
    | AddressValue(address: Address)
    | U64Value(u64Value: u64)
    | I128Value(i128Value: i128)
    | AddressListValue(addresses: seq<Address>)

  type Db = map<DataKey, Value>

  /** The kind of value stored under the keys this contract reads itself. */
  predicate Fits(key: DataKey, v: Value) {
    match key
    case Admin => v.AddressValue?
    case BaseFee => v.I128Value?
    case Balance(_) => v.I128Value?
    case _ => true
  }

  predicate WellTyped(db: Db) {
    forall k :: k in db ==> Fits(k, db[k])
  }

  function GetBaseFee(db: Db): (fee: Option<i128>)
    requires WellTyped(db)
    ensures fee.Some? <==> DataKey.BaseFee in db
    ensures fee.Some? ==> db[DataKey.BaseFee] == I128Value(fee.value)
  {
    if DataKey.BaseFee !in db then None else Some(db[DataKey.BaseFee].i128Value)
  }

  function GetBalance(db: Db, account: Bytes32): (balance: Option<i128>)
    requires WellTyped(db)
    ensures balance.Some? <==> DataKey.Balance(account) in db
    ensures balance.Some? ==> db[DataKey.Balance(account)] == I128Value(balance.value)
  {
    if DataKey.Balance(account) !in db then None else Some(db[DataKey.Balance(account)].i128Value)
  }

  /** The base fee, an unset fee counting as 0. */
  function BaseFeeOrZero(db: Db): i128
    requires WellTyped(db)
  {
    var fee := GetBaseFee(db);
    if fee.None? then 0 else fee.value
  }

  /** An account's balance, an absent balance counting as 0. */
  function BalanceOrZero(db: Db, account: Bytes32): i128
    requires WellTyped(db)
  {
    var balance := GetBalance(db, account);
    if balance.None? then 0 else balance.value
  }

  /** Whether `user` is the stored admin. */
  function IsAdmin(db: Db, user: Address): (admin: bool)
    requires WellTyped(db)
    ensures admin <==> DataKey.Admin in db && db[DataKey.Admin] == AddressValue(user)
  {
    DataKey.Admin in db && db[DataKey.Admin].address == user
  }

  // ---------------------------------------------------------------------
  // The balance extension
  // ---------------------------------------------------------------------

  /**
   * The balance extension's decision on adding `amount` to a balance that
   * stands at `balance`. Which changes it refuses is not part of this model;
   * it never admits a balance outside i128.
   */
  type Policy = admits: (i128, i128) -> bool
    | forall balance: i128, amount: i128 :: admits(balance, amount) ==> I128_MIN <= balance + amount <= I128_MAX
    witness (balance: i128, amount: i128) => false

  /** The policy "a balance may not go negative". */
  function NoOverdraft(): Policy {
    (balance: i128, amount: i128) => 0 <= balance + amount <= I128_MAX
  }

  /** The store after adding `amount` to the account's balance, or None when
      the policy refuses; a refusal changes nothing. */
  function Credit(db: Db, account: Bytes32, amount: i128, admits: Policy): (r: Option<Db>)
    requires WellTyped(db)
    ensures r.Some? <==> admits(BalanceOrZero(db, account), amount)
    ensures r.Some? ==> && WellTyped(r.value)
                        && GetBalance(r.value, account) == Some(BalanceOrZero(db, account) + amount)
                        && r.value - {DataKey.Balance(account)} == db - {DataKey.Balance(account)}
  {
    var balance := BalanceOrZero(db, account);
    if admits(balance, amount) then Some(db[DataKey.Balance(account) := I128Value(balance + amount)]) else None
  }

  /** `base_fee * multiplier` and its negation stay inside i128. */
  predicate ChargeFits(db: Db, multiplier: u32)
    requires WellTyped(db)
  {
    I128_MIN < BaseFeeOrZero(db) * multiplier <= I128_MAX
  }

  /** Taking `base_fee * multiplier` from the account: the store afterwards, or
      InsufficientBalance when the balance extension refuses the debit. */
  function Charge(db: Db, account: Bytes32, multiplier: u32, admits: Policy): (r: Result<Db, Abort>)
    requires WellTyped(db) && ChargeFits(db, multiplier)
    ensures r.Err? <==> !admits(BalanceOrZero(db, account), -(BaseFeeOrZero(db) * multiplier))
    ensures r.Err? ==> r.error == Panic(InsufficientBalance)
    ensures r.Ok? ==> && WellTyped(r.value)
                      && BalanceOrZero(r.value, account) == BalanceOrZero(db, account) - BaseFeeOrZero(db) * multiplier
                      && BaseFeeOrZero(r.value) == BaseFeeOrZero(db)
                      && r.value - {DataKey.Balance(account)} == db - {DataKey.Balance(account)}
  {
    var amount: i128 := -(BaseFeeOrZero(db) * multiplier);
    var credited := Credit(db, account, amount, admits);
    if credited.None? then Err(Panic(InsufficientBalance)) else Ok(credited.value)
  }

  /** The charge of a billable query: the invoker must be known, then it pays. */
  function Billed(db: Db, invoker: Option<Bytes32>, multiplier: u32, admits: Policy): (r: Result<Db, Abort>)
    requires WellTyped(db) && ChargeFits(db, multiplier)
    ensures invoker.None? ==> r == Err(Panic(Unauthorized))
    ensures invoker.Some? ==> r == Charge(db, invoker.value, multiplier, admits)
  {
    if invoker.None? then Err(Panic(Unauthorized)) else Charge(db, invoker.value, multiplier, admits)
  }

  /** Under the no-overdraft policy a charge succeeds exactly when the balance
      covers it, and never leaves the balance negative. */
  lemma ChargeNeverOverdraws(db: Db, account: Bytes32, multiplier: u32)
    requires WellTyped(db) && ChargeFits(db, multiplier)
    requires 0 <= BaseFeeOrZero(db)
    ensures Charge(db, account, multiplier, NoOverdraft()).Ok?
        <==> BaseFeeOrZero(db) * multiplier <= BalanceOrZero(db, account)
    ensures Charge(db, account, multiplier, NoOverdraft()).Ok? ==>
              BalanceOrZero(Charge(db, account, multiplier, NoOverdraft()).value, account) >= 0
  {
  }

  // ---------------------------------------------------------------------
  // Collaborators that are not part of this model
  // ---------------------------------------------------------------------

  /** The shared oracle's configuration step. */
  type Configure = (Db, Address, ConfigData) -> Result<Db, Abort>

  ghost predicate KeepsWellTyped(configure: Configure) {
    forall db, user, config :: WellTyped(db) && configure(db, user, config).Ok? ==>
      WellTyped(configure(db, user, config).value)
  }

  /** The shared oracle's read-only queries, one type per query. */
  type PriceQuery = (Db, Address, u64) -> Result<Option<PriceData>, Abort>
  type LastPriceQuery = (Db, Address) -> Result<Option<PriceData>, Abort>
  type CrossPriceQuery = (Db, Address, Address, u64) -> Result<Option<PriceData>, Abort>
  type LastCrossPriceQuery = (Db, Address, Address) -> Result<Option<PriceData>, Abort>
  type SeriesQuery = (Db, Address, u32) -> Result<Option<seq<PriceData>>, Abort>
  type CrossSeriesQuery = (Db, Address, Address, u32) -> Result<Option<seq<PriceData>>, Abort>
  type AverageQuery = (Db, Address, u32) -> Result<Option<i128>, Abort>
  type CrossAverageQuery = (Db, Address, Address, u32) -> Result<Option<i128>, Abort>

  // ---------------------------------------------------------------------
  // The contract
  // ---------------------------------------------------------------------

  /**
   * An aborted call leaves storage as it found it: the host discards the
   * writes of a call that panics.
   */
  class PriceOracleContract {
    var storage: Db
    /** The one asset accepted for deposits. */
    const feeAsset: Address
    /** The balance extension's decision. */
    const admits: Policy

    ghost predicate Valid()
      reads this
    {
      WellTyped(storage)
    }

    constructor (storage: Db, feeAsset: Address, admits: Policy)
      requires WellTyped(storage)
      ensures Valid()
      ensures this.storage == storage && this.feeAsset == feeAsset && this.admits == admits
    {
      this.storage := storage;
      this.feeAsset := feeAsset;
      this.admits := admits;
    }

    /** The balance extension's setter of the base fee. */
    method SetBaseFee(fee: i128)
      requires Valid()
      modifies this
      ensures Valid()
      ensures storage == old(storage)[DataKey.BaseFee := I128Value(fee)]
      ensures GetBaseFee(storage) == Some(fee)
    {
      storage := storage[DataKey.BaseFee := I128Value(fee)];
    }

    /** Adds `amount` to the account's balance if the policy admits it. */
    method TryIncBalance(account: Bytes32, amount: i128) returns (ok: bool)
      requires Valid()
      modifies this
      ensures Valid()
      ensures ok <==> Credit(old(storage), account, amount, admits).Some?
      ensures storage == if ok then Credit(old(storage), account, amount, admits).value else old(storage)
    {
      var balance := BalanceOrZero(storage, account);
      ok := admits(balance, amount);
      if ok {
        storage := storage[DataKey.Balance(account) := I128Value(balance + amount)];
      }
    }

    /** Configures the oracle, then records the configuration's base fee. */
    method Config(user: Address, config: ConfigData, configure: Configure) returns (r: Result<(), Abort>)
      requires Valid() && KeepsWellTyped(configure)
      modifies this
      ensures Valid()
      ensures configure(old(storage), user, config).Err? ==>
                r == Err(configure(old(storage), user, config).error) && storage == old(storage)
      ensures configure(old(storage), user, config).Ok? ==>
                && r == Ok(())
                && storage == configure(old(storage), user, config).value[DataKey.BaseFee := I128Value(config.baseFee)]
                && GetBaseFee(storage) == Some(config.baseFee)
    {
      var baseFee := config.baseFee;
      var configured := configure(storage, user, config);
      if configured.Err? {
        return Err(configured.error);
      }
      storage := configured.value;
      SetBaseFee(baseFee);
      r := Ok(());
    }

    /** The admin sets the base fee; anyone else is refused. */
    method SetFee(user: Address, fee: i128) returns (r: Result<(), Abort>)
      requires Valid()
      modifies this
      ensures Valid()
      ensures !IsAdmin(old(storage), user) ==> r == Err(Panic(Unauthorized)) && storage == old(storage)
      ensures IsAdmin(old(storage), user) ==>
                r == Ok(()) && storage == old(storage)[DataKey.BaseFee := I128Value(fee)]
    {
      if !IsAdmin(storage, user) {
        return Err(Panic(Unauthorized));
      }
      SetBaseFee(fee);
      r := Ok(());
    }

    /**
     * Credits `amount` of the fee asset to `account`. The amount is checked
     * first, then the asset; only then is the account credited. The result of
     * the credit is not checked: a refused credit still returns normally.
     */
    method Deposit(user: Address, account: Bytes32, asset: Address, amount: i128) returns (r: Result<(), Abort>)
      requires Valid()
      modifies this
      ensures Valid()
      ensures amount <= 0 ==> r == Err(Panic(InvalidDepositAmount)) && storage == old(storage)
      ensures amount > 0 && asset != feeAsset ==> r == Err(Panic(InvalidFeeAsset)) && storage == old(storage)
      ensures amount > 0 && asset == feeAsset ==>
                && r == Ok(())
                && storage == (var credited := Credit(old(storage), account, amount, admits);
                               if credited.Some? then credited.value else old(storage))
    {
      if amount <= 0 {
        return Err(Panic(InvalidDepositAmount));
      }
      if feeAsset != asset {
        return Err(Panic(InvalidFeeAsset));
      }
      var _ := TryIncBalance(account, amount);
      r := Ok(());
    }

    /** Takes `base_fee * multiplier` from the account, or aborts. */
    method ChargeOrPanic(account: Bytes32, multiplier: u32) returns (r: Result<(), Abort>)
      requires Valid() && ChargeFits(storage, multiplier)
      modifies this
      ensures Valid()
      ensures Charge(old(storage), account, multiplier, admits).Err? ==>
                r == Err(Panic(InsufficientBalance)) && storage == old(storage)
      ensures Charge(old(storage), account, multiplier, admits).Ok? ==>
                r == Ok(()) && storage == Charge(old(storage), account, multiplier, admits).value
    {
      var baseFee := GetBaseFee(storage);
      var fee: i128 := if baseFee.None? then 0 else baseFee.value;
      var amount: i128 := -(fee * multiplier);
      var ok := TryIncBalance(account, amount);
      if !ok {
        return Err(Panic(InsufficientBalance));
      }
      r := Ok(());
    }

    /** Charges the invoker, then answers the query on the charged store. A
        query that finds no data has still been paid for. */
    method ChargeThenQuery<R>(invoker: Option<Bytes32>, multiplier: u32, query: Db -> Result<R, Abort>)
      returns (r: Result<R, Abort>)
      requires Valid() && ChargeFits(storage, multiplier)
      modifies this
      ensures Valid()
      ensures Billed(old(storage), invoker, multiplier, admits).Err? ==>
                r == Err(Billed(old(storage), invoker, multiplier, admits).error) && storage == old(storage)
      ensures Billed(old(storage), invoker, multiplier, admits).Ok? ==>
                && r == query(Billed(old(storage), invoker, multiplier, admits).value)
                && storage == if r.Ok? then Billed(old(storage), invoker, multiplier, admits).value else old(storage)
    {
      var before := storage;
      if invoker.None? {
        return Err(Panic(Unauthorized));
      }
      var charged := ChargeOrPanic(invoker.value, multiplier);
      if charged.Err? {
        return Err(charged.error);
      }
      r := query(storage);
      if r.Err? {
        storage := before;
      }
    }

    method Price(invoker: Option<Bytes32>, asset: Address, timestamp: u64, query: PriceQuery)
      returns (r: Result<Option<PriceData>, Abort>)
      requires Valid() && ChargeFits(storage, 1)
      modifies this
      ensures Valid()
      ensures Billed(old(storage), invoker, 1, admits).Err? ==>
                r == Err(Billed(old(storage), invoker, 1, admits).error) && storage == old(storage)
      ensures Billed(old(storage), invoker, 1, admits).Ok? ==>
                && r == query(Billed(old(storage), invoker, 1, admits).value, asset, timestamp)
                && storage == if r.Ok? then Billed(old(storage), invoker, 1, admits).value else old(storage)
    {
      r := ChargeThenQuery(invoker, 1, db => query(db, asset, timestamp));
    }

    method LastPrice(invoker: Option<Bytes32>, asset: Address, query: LastPriceQuery)
      returns (r: Result<Option<PriceData>, Abort>)
      requires Valid() && ChargeFits(storage, 1)
      modifies this
      ensures Valid()
      ensures Billed(old(storage), invoker, 1, admits).Err? ==>
                r == Err(Billed(old(storage), invoker, 1, admits).error) && storage == old(storage)
      ensures Billed(old(storage), invoker, 1, admits).Ok? ==>
                && r == query(Billed(old(storage), invoker, 1, admits).value, asset)
                && storage == if r.Ok? then Billed(old(storage), invoker, 1, admits).value else old(storage)
    {
      r := ChargeThenQuery(invoker, 1, db => query(db, asset));
    }

    method XPrice(invoker: Option<Bytes32>, baseAsset: Address, quoteAsset: Address, timestamp: u64,
                  query: CrossPriceQuery)
      returns (r: Result<Option<PriceData>, Abort>)
      requires Valid() && ChargeFits(storage, 2)
      modifies this
      ensures Valid()
      ensures Billed(old(storage), invoker, 2, admits).Err? ==>
                r == Err(Billed(old(storage), invoker, 2, admits).error) && storage == old(storage)
      ensures Billed(old(storage), invoker, 2, admits).Ok? ==>
                && r == query(Billed(old(storage), invoker, 2, admits).value, baseAsset, quoteAsset, timestamp)
                && storage == if r.Ok? then Billed(old(storage), invoker, 2, admits).value else old(storage)
    {
      r := ChargeThenQuery(invoker, 2, db => query(db, baseAsset, quoteAsset, timestamp));
    }

    method XLtPrice(invoker: Option<Bytes32>, baseAsset: Address, quoteAsset: Address, query: LastCrossPriceQuery)
      returns (r: Result<Option<PriceData>, Abort>)
      requires Valid() && ChargeFits(storage, 2)
      modifies this
      ensures Valid()
      ensures Billed(old(storage), invoker, 2, admits).Err? ==>
                r == Err(Billed(old(storage), invoker, 2, admits).error) && storage == old(storage)
      ensures Billed(old(storage), invoker, 2, admits).Ok? ==>
                && r == query(Billed(old(storage), invoker, 2, admits).value, baseAsset, quoteAsset)
                && storage == if r.Ok? then Billed(old(storage), invoker, 2, admits).value else old(storage)
    {
      r := ChargeThenQuery(invoker, 2, db => query(db, baseAsset, quoteAsset));
    }

    method Prices(invoker: Option<Bytes32>, asset: Address, records: u32, query: SeriesQuery)
      returns (r: Result<Option<seq<PriceData>>, Abort>)
      requires Valid() && ChargeFits(storage, records)
      modifies this
      ensures Valid()
      ensures Billed(old(storage), invoker, records, admits).Err? ==>
                r == Err(Billed(old(storage), invoker, records, admits).error) && storage == old(storage)
      ensures Billed(old(storage), invoker, records, admits).Ok? ==>
                && r == query(Billed(old(storage), invoker, records, admits).value, asset, records)
                && storage == if r.Ok? then Billed(old(storage), invoker, records, admits).value else old(storage)
    {
      r := ChargeThenQuery(invoker, records, db => query(db, asset, records));
    }

    /** `records * 2` is u32 arithmetic; the caller keeps it in range. */
    method XPrices(invoker: Option<Bytes32>, baseAsset: Address, quoteAsset: Address, records: u32,
                   query: CrossSeriesQuery)
      returns (r: Result<Option<seq<PriceData>>, Abort>)
      requires records * 2 <= U32_MAX
      requires Valid() && ChargeFits(storage, records * 2)
      modifies this
      ensures Valid()
      ensures Billed(old(storage), invoker, records * 2, admits).Err? ==>
                r == Err(Billed(old(storage), invoker, records * 2, admits).error) && storage == old(storage)
      ensures Billed(old(storage), invoker, records * 2, admits).Ok? ==>
                && r == query(Billed(old(storage), invoker, records * 2, admits).value, baseAsset, quoteAsset, records)
                && storage == if r.Ok? then Billed(old(storage), invoker, records * 2, admits).value else old(storage)
    {
      r := ChargeThenQuery(invoker, records * 2, db => query(db, baseAsset, quoteAsset, records));
    }

    method Twap(invoker: Option<Bytes32>, asset: Address, records: u32, query: AverageQuery)
      returns (r: Result<Option<i128>, Abort>)
      requires Valid() && ChargeFits(storage, records)
      modifies this
      ensures Valid()
      ensures Billed(old(storage), invoker, records, admits).Err? ==>
                r == Err(Billed(old(storage), invoker, records, admits).error) && storage == old(storage)
      ensures Billed(old(storage), invoker, records, admits).Ok? ==>
                && r == query(Billed(old(storage), invoker, records, admits).value, asset, records)
                && storage == if r.Ok? then Billed(old(storage), invoker, records, admits).value else old(storage)
    {
      r := ChargeThenQuery(invoker, records, db => query(db, asset, records));
    }

    method XTwap(invoker: Option<Bytes32>, baseAsset: Address, quoteAsset: Address, records: u32,
                 query: CrossAverageQuery)
      returns (r: Result<Option<i128>, Abort>)
      requires Valid() && ChargeFits(storage, records)
      modifies this
      ensures Valid()
      ensures Billed(old(storage), invoker, records, admits).Err? ==>
                r == Err(Billed(old(storage), invoker, records, admits).error) && storage == old(storage)
      ensures Billed(old(storage), invoker, records, admits).Ok? ==>
                && r == query(Billed(old(storage), invoker, records, admits).value, baseAsset, quoteAsset, records)
                && storage == if r.Ok? then Billed(old(storage), invoker, records, admits).value else old(storage)
    {
      r := ChargeThenQuery(invoker, records, db => query(db, baseAsset, quoteAsset, records));
    }
  }

  /**
   * A deposit of 500 at a base fee of 100 pays for three single-record
   * queries and leaves 200. Queries that find nothing are charged all the same.
   */
  method PrepaidQueriesScenario(admin: Address, feeAsset: Address, account: Bytes32, asset: Address)
  {
    var oracle := new PriceOracleContract(map[DataKey.Admin := AddressValue(admin)], feeAsset, NoOverdraft());
    var done := oracle.SetFee(admin, 100);
    assert done.Ok?;
    done := oracle.Deposit(admin, account, feeAsset, 500);
    assert BalanceOrZero(oracle.storage, account) == 500 && BaseFeeOrZero(oracle.storage) == 100;
    var noData: PriceQuery := (db: Db, a: Address, t: u64) => Ok(None);
    var answer := oracle.Price(Some(account), asset, 10, noData);
    assert answer == Ok(None);
    assert BalanceOrZero(oracle.storage, account) == 400;
    answer := oracle.Price(Some(account), asset, 10, noData);
    assert BalanceOrZero(oracle.storage, account) == 300;
    answer := oracle.Price(Some(account), asset, 10, noData);
    assert BalanceOrZero(oracle.storage, account) == 200;
  }

  /**
   * With 200 left and the fee raised to 300, the next query is refused and
   * the balance stays at 200.
   */
  method RefusedQueryScenario(admin: Address, feeAsset: Address, account: Bytes32, asset: Address)
  {
    var start := map[DataKey.Admin := AddressValue(admin), DataKey.Balance(account) := I128Value(200)];
    var oracle := new PriceOracleContract(start, feeAsset, NoOverdraft());
    var done := oracle.SetFee(admin, 300);
    assert done.Ok?;
    assert BalanceOrZero(oracle.storage, account) == 200 && BaseFeeOrZero(oracle.storage) == 300;
    var noData: PriceQuery := (db: Db, a: Address, t: u64) => Ok(None);
    var answer := oracle.Price(Some(account), asset, 10, noData);
    assert answer == Err(Panic(InsufficientBalance));
    assert BalanceOrZero(oracle.storage, account) == 200;
  }
}
